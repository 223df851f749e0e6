/**
 The values the SERR dashboard works on (src/Dashboard.js): the rows decoded from an
 imported spreadsheet, the chart series it renders, the flat rows it exports, and its
 fixed constants.
 */
module Charts {
  import opened Wrappers

  /** One decoded spreadsheet row. Only the ClientType and Income columns are read by the
      import; a cell left empty in the sheet is missing from the decoded row. */
  datatype Row = Row(clientType: Option<string>, income: Option<int>)

  /** One slice of a chart: a client type and its value. */
  datatype Point = Point(name: string, value: int)

  /** A titled chart series. */
  datatype Chart = Chart(title: string, data: seq<Point>)

  /** One row of the exported sheet: the columns Chart, ClientType and Value. */
  datatype ExportRow = ExportRow(chart: string, clientType: string, value: int)

  /** The slice colours, assigned in turn. */
  const Colors: seq<string> := ["#1f77b4", "#2ca02c", "#ff7f0e", "#d62728", "#9467bd"]

  /** The client types, in the order the imported series lists them. */
  const Types: seq<string> := ["Individual", "Company", "Trust", "Partnership", "Super Fund"]

  /** The number of charts the dashboard shows. */
  const ChartCount: nat := 3

  /** The title the imported series is given. */
  const ImportedTitle: string := "2. Total Unlodged SERR Income"

  /** The three charts shown before any import. */
  const InitialData: seq<Chart> := [
    Chart("1. Unlodged Client Count by Type", [
      Point("Individual", 14192),
      Point("Company", 952),
      Point("Trust", 183),
      Point("Partnership", 87),
      Point("Super Fund", 7)
    ]),
    Chart(ImportedTitle, [
      Point("Individual", 3827393000),
      Point("Company", 605185700),
      Point("Trust", 123600700),
      Point("Partnership", 29013800),
      Point("Super Fund", 5781800)
    ]),
    Chart("3. Average Income per Client", [
      Point("Trust", 675414),
      Point("Company", 635699),
      Point("Partnership", 338863),
      Point("Individual", 269687),
      Point("Super Fund", 82559)
    ])
  ]

  /** No string occurs twice in `s`. */
  predicate Distinct(s: seq<string>) {
    forall i, j :: 0 <= i < j < |s| ==> s[i] != s[j]
  }

  /** The client types are pairwise different, so a row matches at most one of them. */
  lemma TypesDistinct()
    ensures Distinct(Types)
  {
    assert Types[0][0] == 'I' && Types[4][0] == 'S';
  }

  /** The colours are pairwise different: they differ in their second character. */
  lemma ColorsDistinct()
    ensures Distinct(Colors)
  {
    assert Colors[0][1] == '1' && Colors[1][1] == '2' && Colors[2][1] == 'f';
    assert Colors[3][1] == 'd' && Colors[4][1] == '9';
  }
}
