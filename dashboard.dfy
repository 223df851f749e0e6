/**
 The dashboard's state and its two data actions (src/Dashboard.js:49-91): the list of
 charts it shows, the import that replaces the second chart with a series grouped from a
 spreadsheet, and the export that flattens all charts into rows.
 */
module DashboardView {
  import opened Wrappers
  import opened Charts
  import opened Grouping
  import opened Export

  /** The charts after an import of `rows`: the first and third are kept, the second is
      the grouped series under the fixed title. */
  function Imported(charts: seq<Chart>, rows: seq<Row>): (r: seq<Chart>)
    requires |charts| == ChartCount
    ensures |r| == 3 && r[0] == charts[0] && r[2] == charts[2]
    ensures r[1].title == ImportedTitle && |r[1].data| == |Types|
    ensures forall i :: 0 <= i < |Types| ==> r[1].data[i] == Point(Types[i], TypeTotal(rows, Types[i]))
  {
    GroupTotals(rows);
    [charts[0], Chart(ImportedTitle, Group(rows)), charts[2]]
  }

  class Dashboard {
    /** The charts on display. */
    var charts: seq<Chart>

    /** There are always three charts. */
    ghost predicate Valid()
      reads this
    {
      |charts| == ChartCount
    }

    /** The dashboard starts from the built-in dataset. */
    constructor ()
      ensures Valid() && charts == InitialData
    {
      charts := InitialData;
    }

    /** Import the decoded rows of the chosen file; with no file chosen, nothing changes. */
    method HandleImport(file: Option<seq<Row>>)
      requires Valid()
      modifies this
      ensures Valid()
      ensures file.None? ==> charts == old(charts)
      ensures file.Some? ==> charts == Imported(old(charts), file.value)
    {
      if file.None? {
        return;
      }
      var rows := file.value;
      var grouped := Group(rows);
      charts := [charts[0], Chart(ImportedTitle, grouped), charts[2]];
    }

    /** The rows written to the exported sheet, built by appending row after row. */
    method HandleExport() returns (rows: seq<ExportRow>)
      ensures rows == Flatten(charts)
    {
      rows := [];
      for i := 0 to |charts|
        invariant rows == Flatten(charts[..i])
      {
        var chart := charts[i];
        for j := 0 to |chart.data|
          invariant rows == Flatten(charts[..i]) + ChartRows(chart)[..j]
        {
          rows := rows + [ExportRow(chart.title, chart.data[j].name, chart.data[j].value)];
        }
        assert charts[..i + 1] == charts[..i] + [chart];
        FlattenAppend(charts[..i], [chart]);
      }
      assert charts[..|charts|] == charts;
    }
  }

  /** A later import wholly replaces an earlier one. */
  lemma ImportLastWins(charts: seq<Chart>, first: seq<Row>, second: seq<Row>)
    requires |charts| == ChartCount
    ensures Imported(Imported(charts, first), second) == Imported(charts, second)
  {
  }

  /** After an import the export has the first and third charts' rows and five more. */
  lemma ExportAfterImport(charts: seq<Chart>, rows: seq<Row>)
    requires |charts| == ChartCount
    ensures |Flatten(Imported(charts, rows))| == |charts[0].data| + |Types| + |charts[2].data|
  {
    PointCountOfThree(Imported(charts, rows));
  }

  /** How an exported row reads back when imported: its sheet has ClientType but no Income
      column. */
  function ReadBack(e: ExportRow): Row {
    Row(Some(e.clientType), None)
  }

  /** The rows an exported sheet reads back as. */
  function ReadBackAll(exported: seq<ExportRow>): seq<Row> {
    seq(|exported|, k requires 0 <= k < |exported| => ReadBack(exported[k]))
  }

  /** Importing an exported sheet sets every value of the second chart to 0, because the
      export writes a Value column and the import reads an Income column. */
  lemma ReimportedExportIsZero(charts: seq<Chart>)
    ensures forall i :: 0 <= i < |Types| ==> Group(ReadBackAll(Flatten(charts)))[i].value == 0
  {
    var rows := ReadBackAll(Flatten(charts));
    GroupTotals(rows);
    forall i | 0 <= i < |Types|
      ensures TypeTotal(rows, Types[i]) == 0
    {
      NoIncomeTotalsZero(rows, Types[i]);
    }
  }

  lemma {:induction false} NoIncomeTotalsZero(rows: seq<Row>, t: string)
    requires forall k :: 0 <= k < |rows| ==> rows[k].income.None?
    ensures TypeTotal(rows, t) == 0
  {
    if rows != [] {
      NoIncomeTotalsZero(rows[1..], t);
    }
  }
}
