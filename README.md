# SERR dashboard data core in Dafny

This project models the data handling of the SERR dashboard, the React component in
`src/Dashboard.js`. The dashboard shows three pie charts of unlodged tax-return ("SERR")
figures by client type: client count, total income and average income. It has three
pieces of logic that are not rendering:

- **Import grouping.** The rows decoded from an imported spreadsheet are grouped into one
  `{name, value}` point per client type. The types come in the fixed order Individual,
  Company, Trust, Partnership, Super Fund. Each value is the sum of `Income` over the rows
  whose `ClientType` is exactly that type, and a missing `Income` counts as 0. The grouped
  series replaces only the second chart and keeps the other two.
- **Export flattening.** Every point of every chart becomes one flat row
  `{Chart, ClientType, Value}`. The rows go chart by chart and, within a chart, in the
  chart's own order.
- **Per-slice rendering data.** This is the vertical label nudge of a slice, a total
  function of its client type and chart index, and its fill colour, which cycles through
  five colours.

Modules:

- `Wrappers`: `Option`.
- `Charts`: the decoded `Row`, the chart `Point` and `Chart`, the `ExportRow`, and the
  constants `Types`, `Colors` and `InitialData`.
- `Grouping`: the `filter`/`reduce` grouping, written the way the source writes it. A left
  fold over the filtered rows is checked against an independent reference total,
  `TypeTotal`.
- `Export`: `Flatten`, the function that defines the exported rows.
- `Labels`: `LabelOffset`, `SliceColor` and the per-slice `Cells`.
- `DashboardView`: the class `Dashboard`. It holds the `charts` state, and its methods are
  `HandleImport`, which replaces the state, and `HandleExport`, which builds the rows with
  two nested loops.

Two facts about the import shape the model:

- The dashboard sums `Income` only. An import derives no count or average.
- Rows whose `ClientType` is not one of the five types are dropped, not appended
  (`GroupConservesKnownIncome`).

## Model

| member | source | states |
|---|---|---|
| `Charts.TypesDistinct` | src/Dashboard.js:14 | the five client types are pairwise different, so a row matches at most one entry |
| `Charts.ColorsDistinct` | src/Dashboard.js:13 | the five slice colours are pairwise different |
| `Grouping.Contribution` | src/Dashboard.js:69 | a row adds its Income when present, and 0 when the Income cell is missing |
| `Grouping.IncomeSum` | src/Dashboard.js:69 | the `reduce` from seed 0 gives 0 when no row has an Income, and is non-negative when no row adds a negative amount |
| `Grouping.Matching` | src/Dashboard.js:69 | the filter keeps every row whose ClientType is exactly the type, with its multiplicity, and no other row |
| `Grouping.Group` | src/Dashboard.js:67-70 | the grouped series has exactly five points, and the i-th is named after the i-th type whatever the input |
| `Grouping.IncomeSumAppend` | src/Dashboard.js:69 | the reduce from seed 0 is additive over concatenated row lists |
| `Grouping.MatchingSum` | src/Dashboard.js:69 | filtering and then reducing gives exactly the reference total of the type, a missing Income counting 0 |
| `Grouping.GroupTotals` | src/Dashboard.js:67-70 | each grouped point is (type, reference total of that type over all rows) |
| `Grouping.TypeTotalAppend` | src/Dashboard.js:69 | a type's total over a concatenation is the sum of the totals of the parts |
| `Grouping.TypeTotalRemove` | src/Dashboard.js:69 | taking one row out of the list lowers its type's total by exactly that row's share |
| `Grouping.MultisetRemove` | src/Dashboard.js:69 | proof helper, a generic sequence fact: taking row j out of a list removes exactly one copy of it from the list's multiset |
| `Grouping.TypeTotalPermutation` | src/Dashboard.js:69 | a type's total does not depend on the order of the rows |
| `Grouping.TypeTotalAbsent` | src/Dashboard.js:69 | a type that no row carries totals to the reduce seed 0 |
| `Grouping.GroupOrderIndependent` | src/Dashboard.js:67-69 | two row lists that are permutations of each other group to the same series |
| `Grouping.GroupAbsentType` | src/Dashboard.js:69 | a type with no matching row gets value 0 |
| `Grouping.GroupAppendRow` | src/Dashboard.js:67-69 | appending one row raises only the entry of its own type, by its income, and leaves the others unchanged |
| `Grouping.GroupIgnoresRow` | src/Dashboard.js:69 | a row with a missing or unknown ClientType, or with no Income, changes no entry wherever it stands |
| `Grouping.ShareOverDistinct` | src/Dashboard.js:67-69 | proof helper: over distinct types, one row adds its income to the sum of all entries if its type is listed, and 0 otherwise |
| `Grouping.TotalsOverSplit` | src/Dashboard.js:67-69 | proof helper: the sum of the entries splits into the first row's share plus the sum over the remaining rows |
| `Grouping.TotalsOverKnown` | src/Dashboard.js:67-69 | proof helper: over distinct types, the sum of the type totals is the income of the rows of a listed type |
| `Grouping.TotalsOverEmpty` | src/Dashboard.js:69 | proof helper: the summed totals over any types are 0 when there are no rows |
| `Grouping.ValueSumTotals` | src/Dashboard.js:67-68 | proof helper: a series whose values are the type totals sums to the totals over those types |
| `Grouping.GroupConservesKnownIncome` | src/Dashboard.js:67-69 | the grouped values add up to the income of exactly the rows whose type is one of the five: nothing is counted twice, and only rows of another type are lost |
| `Grouping.TypeTotalOfThree` | src/Dashboard.js:69 | proof helper, the reference total unrolled at length three: the total of three rows is the sum of their three shares |
| `Grouping.SampleImport` | src/Dashboard.js:67-70 | two Individual rows (100, 200) and one Company row (300) group to 300, 300, 0, 0, 0 |
| `Grouping.SampleTotals` | src/Dashboard.js:69 | proof helper for SampleImport: the reference totals of the three example rows are 300, 300, 0, 0, 0 |
| `Export.Flatten` | src/Dashboard.js:81-86 | the export has exactly one row per data point over all charts |
| `Export.ChartRows` | src/Dashboard.js:83-84 | one chart gives exactly one row per point, each carrying the chart's title and the point's name and value, in the chart's order |
| `Export.FlattenAppend` | src/Dashboard.js:82-86 | exporting a concatenation of chart lists gives the first list's rows followed by the second's |
| `Export.FlattenAt` | src/Dashboard.js:82-84 | point di of chart ci is exported unchanged (chart title, point name, value) at position "points before chart ci" + di |
| `Export.ChartBlocksOrdered` | src/Dashboard.js:82-83 | all rows of an earlier chart come before those of a later one |
| `Export.FlattenSource` | src/Dashboard.js:82-84 | every exported row is an unchanged point of some chart, at that point's position |
| `Export.PointCountOfThree` | src/Dashboard.js:82 | proof helper, the point count unrolled at length three: three charts have as many points as their three series together |
| `Export.InitialExportCount` | src/Dashboard.js:16-47 | the built-in dataset exports 15 rows |
| `Labels.LabelOffset` | src/Dashboard.js:93-97 | the nudge is non-zero exactly for Partnership, or for Super Fund on the third chart, and lies between -20 and 25 |
| `Labels.LabelOffsetMatchesTable` | src/Dashboard.js:93-97 | on the three charts the nudge equals a per-name table (Partnership 15, 15, 25; Super Fund 0, 0, -20) and is 0 for other names |
| `Labels.SliceColor` | src/Dashboard.js:135 | the colour of any slice index is one of the five colours |
| `Labels.SliceColorPeriodic` | src/Dashboard.js:135 | slice colours repeat with period five |
| `Labels.SliceColorsDistinct` | src/Dashboard.js:135 | any five consecutive slices get five different colours |
| `Labels.Cells` | src/Dashboard.js:132-138 | a chart gets one cell per point, and cell i gets the colour of slice i and the label nudge of point i's name on this chart; so every fill is one of the five colours and every nudge lies between -20 and 25 |
| `Labels.CellFillsDistinct` | src/Dashboard.js:132-138 | in a chart of at most five slices, no two cells share a fill |
| `DashboardView.Imported` | src/Dashboard.js:71-75 | after an import there are still three charts: the first and third are unchanged, and the second has the fixed title and point i = (type i, reference total of type i) |
| `DashboardView.Dashboard.constructor` | src/Dashboard.js:50 | the dashboard starts with the built-in three charts |
| `DashboardView.Dashboard.HandleImport` | src/Dashboard.js:59-75 | with no file chosen the charts stay as they were; otherwise they become the imported charts, and there are still three |
| `DashboardView.Dashboard.HandleExport` | src/Dashboard.js:80-86 | the rows pushed by the nested loops are exactly the flattened charts |
| `DashboardView.ImportLastWins` | src/Dashboard.js:71-75 | a second import wholly replaces the first one's series |
| `DashboardView.ExportAfterImport` | src/Dashboard.js:71-86 | after an import, the export has the first and third charts' rows plus five |
| `DashboardView.ReimportedExportIsZero` | src/Dashboard.js:69 | re-importing an exported sheet, which has a Value column but no Income column, sets every grouped value to 0 |
| `DashboardView.NoIncomeTotalsZero` | src/Dashboard.js:69 | rows that all lack an Income total to 0 for every type |

## Left out

- Spreadsheet decoding and encoding (`XLSX.read`, `sheet_to_json`, `json_to_sheet`, `book_new`, `book_append_sheet`, `writeFile`) is a foreign library plus file I/O. The decoded rows are the model's input and the flat export rows its output. No decode/encode round trip is modelled.
- `DashboardView.ReimportedExportIsZero` assumes that the spreadsheet library reads an exported sheet back with its column headers as the field names.
- The asynchronous `FileReader` load is not modelled. In the source, the `onload` callback uses the `charts` value captured when the handler was created. The model applies an import to the current state instead.
- An exception thrown while decoding is not modelled. In the source it leaves the charts as they were.
- The one-second loading flag (`setTimeout`, `clearTimeout`) and the "Loading..." screen are UI timing.
- The chart-type toggle is UI state and is never used in rendering.
- The label text, with `toFixed(1)` and `toLocaleString()`, is floating-point and locale formatting.
- Slice geometry and percentages are computed by the charting library. This file only hands each cell its colour and label nudge.
- JavaScript value coercions are not modelled. `Income` is modelled as an optional integer, so a text Income that would concatenate and a fractional or inexact floating-point sum are outside the model. A ClientType that is not text is modelled as missing, since it never equals a type name.
- The third chart's values are treated as opaque data. They are not total divided by count (Partnership: 29013800 / 87 is about 333492, shown as 338863).
