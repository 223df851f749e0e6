/**
 Per-slice rendering data (src/Dashboard.js:93-97, 132-138): the vertical label nudge of a
 slice, chosen by its client type and the index of its chart, and its fill colour,
 chosen by its position in the chart.
 */
module Labels {
  import opened Charts

  /** The label nudge of slice `name` in chart `chartIndex`. Partnership is pushed down
      in every chart, further in the third; Super Fund is pulled up in the third chart. */
  function LabelOffset(name: string, chartIndex: int): (r: int)
    ensures r != 0 <==> name == "Partnership" || (name == "Super Fund" && chartIndex == 2)
    ensures -20 <= r <= 25
  {
    if name == "Partnership" then (if chartIndex < 2 then 15 else 25)
    else if name == "Super Fund" && chartIndex == 2 then -20
    else 0
  }

  /** The nudges of the three charts as a lookup table; a name missing from it is not nudged. */
  const OffsetTable: map<string, seq<int>> := map["Partnership" := [15, 15, 25], "Super Fund" := [0, 0, -20]]

  /** On the three charts the dashboard shows, the offset function and the table agree. */
  lemma LabelOffsetMatchesTable(name: string, chartIndex: nat)
    requires chartIndex < ChartCount
    ensures name in OffsetTable ==> LabelOffset(name, chartIndex) == OffsetTable[name][chartIndex]
    ensures name !in OffsetTable ==> LabelOffset(name, chartIndex) == 0
  {
  }

  /** The fill colour of slice `i`: the colours are used in turn, over and over. */
  function SliceColor(i: nat): (c: string)
    ensures c in Colors
  {
    Colors[i % |Colors|]
  }

  /** The colours repeat with period five. */
  lemma SliceColorPeriodic(i: nat)
    ensures SliceColor(i + |Colors|) == SliceColor(i)
  {
    assert (i + |Colors|) % |Colors| == i % |Colors|;
  }

  /** Any five consecutive slices have five different colours. */
  lemma SliceColorsDistinct(i: nat, j: nat)
    requires i < j < i + |Colors|
    ensures SliceColor(i) != SliceColor(j)
  {
    var n := |Colors|;
    var p, q := i % n, j % n;
    assert i == n * (i / n) + p && j == n * (j / n) + q;
    ColorsDistinct();
  }

  /** What is handed to each slice of a chart: its fill and its label nudge. */
  datatype Cell = Cell(fill: string, labelOffset: int)

  /** The cells of chart `ch`, shown at position `chartIndex`. */
  function Cells(ch: Chart, chartIndex: nat): (r: seq<Cell>)
    ensures |r| == |ch.data|
    ensures forall i :: 0 <= i < |r| ==> r[i] == Cell(SliceColor(i), LabelOffset(ch.data[i].name, chartIndex))
    ensures forall i :: 0 <= i < |r| ==> r[i].fill in Colors
    ensures forall i :: 0 <= i < |r| ==> -20 <= r[i].labelOffset <= 25
  {
    seq(|ch.data|, i requires 0 <= i < |ch.data| => Cell(SliceColor(i), LabelOffset(ch.data[i].name, chartIndex)))
  }

  /** In a chart of at most five slices no two slices share a colour. */
  lemma CellFillsDistinct(ch: Chart, chartIndex: nat, i: nat, j: nat)
    requires i < j < |ch.data| <= |Colors|
    ensures Cells(ch, chartIndex)[i].fill != Cells(ch, chartIndex)[j].fill
  {
    SliceColorsDistinct(i, j);
  }
}
