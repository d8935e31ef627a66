/** Lists of series that are built family by family. */
module FamilyBlocks {
  import opened Sequences
  import opened Metrics

  /** A family and its series. */
  type Row = (string, seq<Series>)

  function SeriesIn(row: Row): seq<Series> { row.1 }

  /** Each row has series of its own family only. */
  ghost predicate Pure(rows: seq<Row>) {
    forall i, s :: 0 <= i < |rows| && s in rows[i].1 ==> s.family == rows[i].0
  }

  ghost predicate Apart(rows: seq<Row>) {
    forall i, j :: 0 <= i < j < |rows| ==> rows[i].0 != rows[j].0
  }

  lemma {:induction false} NoRow(rows: seq<Row>, family: string)
    requires Pure(rows) && forall i :: 0 <= i < |rows| ==> rows[i].0 != family
    ensures OfFamily(family, FlatMap(SeriesIn, rows)) == []
  {
    if rows != [] {
      var front, last := rows[..|rows| - 1], rows[|rows| - 1];
      NoRow(front, family);
      FilterAppend(InFamily(family), FlatMap(SeriesIn, front), last.1);
      FilterAll(InFamily(family), last.1);
    }
  }

  /** In a list built from rows of different families, each family has exactly the series of its row. */
  lemma {:induction false} RowFamily(rows: seq<Row>, k: nat)
    requires Pure(rows) && Apart(rows) && k < |rows|
    ensures OfFamily(rows[k].0, FlatMap(SeriesIn, rows)) == rows[k].1
  {
    var n := |rows| - 1;
    var front, last := rows[..n], rows[n];
    FilterAppend(InFamily(rows[k].0), FlatMap(SeriesIn, front), last.1);
    FilterAll(InFamily(rows[k].0), last.1);
    if k == n {
      NoRow(front, last.0);
    } else {
      RowFamily(front, k);
      assert rows[k].0 != last.0;
      assert front[k] == rows[k];
    }
  }
}
