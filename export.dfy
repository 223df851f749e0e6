/**
 The export's flattening step (src/Dashboard.js:81-86): every point of every chart
 becomes one flat row carrying the chart's title, the point's name and its value,
 chart by chart and, within a chart, in the chart's own order.
 */
module Export {
  import opened Charts

  /** The flat rows of one chart, in the chart's order. */
  function ChartRows(ch: Chart): (r: seq<ExportRow>)
    ensures |r| == |ch.data|
    ensures forall k :: 0 <= k < |r| ==> r[k].chart == ch.title
    ensures forall k :: 0 <= k < |r| ==> r[k].clientType == ch.data[k].name && r[k].value == ch.data[k].value
  {
    seq(|ch.data|, k requires 0 <= k < |ch.data| => ExportRow(ch.title, ch.data[k].name, ch.data[k].value))
  }

  /** The number of points over all charts. */
  function PointCount(charts: seq<Chart>): nat {
    if charts == [] then 0 else |charts[0].data| + PointCount(charts[1..])
  }

  /** The exported rows: each chart's rows, chart after chart. */
  function Flatten(charts: seq<Chart>): (r: seq<ExportRow>)
    ensures |r| == PointCount(charts)
  {
    if charts == [] then [] else ChartRows(charts[0]) + Flatten(charts[1..])
  }

  /** Exporting a concatenation of chart lists exports the first list's rows, then the second's. */
  lemma {:induction false} FlattenAppend(a: seq<Chart>, b: seq<Chart>)
    ensures Flatten(a + b) == Flatten(a) + Flatten(b)
  {
    if a == [] {
      assert a + b == b;
    } else {
      assert (a + b)[1..] == a[1..] + b;
      FlattenAppend(a[1..], b);
    }
  }

  /** Point `di` of chart `ci` is exported, unchanged, at the position after all the points
      of the charts before it and the points before it in its own chart. */
  lemma FlattenAt(charts: seq<Chart>, ci: nat, di: nat)
    requires ci < |charts| && di < |charts[ci].data|
    ensures PointCount(charts[..ci]) + di < |Flatten(charts)|
    ensures Flatten(charts)[PointCount(charts[..ci]) + di]
      == ExportRow(charts[ci].title, charts[ci].data[di].name, charts[ci].data[di].value)
  {
    assert charts == charts[..ci] + charts[ci..];
    FlattenAppend(charts[..ci], charts[ci..]);
  }

  /** The rows of an earlier chart all come before those of a later one. */
  lemma {:induction false} ChartBlocksOrdered(charts: seq<Chart>, ci: nat, cj: nat)
    requires ci < cj <= |charts|
    ensures PointCount(charts[..ci]) + |charts[ci].data| <= PointCount(charts[..cj])
  {
    assert charts[..cj] == charts[..ci] + charts[ci..cj];
    FlattenAppend(charts[..ci], charts[ci..cj]);
    assert charts[ci..cj] == [charts[ci]] + charts[ci + 1..cj];
    FlattenAppend([charts[ci]], charts[ci + 1..cj]);
  }

  /** Every exported row is some point of some chart, unchanged: no row is invented. */
  lemma {:induction false} FlattenSource(charts: seq<Chart>, k: nat) returns (ci: nat, di: nat)
    requires k < |Flatten(charts)|
    ensures ci < |charts| && di < |charts[ci].data|
    ensures k == PointCount(charts[..ci]) + di
    ensures Flatten(charts)[k] == ExportRow(charts[ci].title, charts[ci].data[di].name, charts[ci].data[di].value)
  {
    if k < |charts[0].data| {
      ci, di := 0, k;
      assert charts[..0] == [];
    } else {
      var cj, dj := FlattenSource(charts[1..], k - |charts[0].data|);
      ci, di := cj + 1, dj;
      assert charts[..ci] == [charts[0]] + charts[1..][..cj];
      FlattenAppend([charts[0]], charts[1..][..cj]);
    }
    FlattenAt(charts, ci, di);
  }

  /** The point count of three charts. */
  lemma PointCountOfThree(charts: seq<Chart>)
    requires |charts| == 3
    ensures PointCount(charts) == |charts[0].data| + |charts[1].data| + |charts[2].data|
  {
    var tail := charts[1..];
    assert tail[0] == charts[1] && tail[1..][0] == charts[2];
    assert PointCount(tail) == |charts[1].data| + PointCount(tail[1..]);
    assert PointCount(tail[1..]) == |charts[2].data| + PointCount(tail[1..][1..]);
    assert tail[1..][1..] == [];
  }

  /** The built-in dataset exports 15 rows. */
  lemma InitialExportCount()
    ensures |Flatten(InitialData)| == 15
  {
    PointCountOfThree(InitialData);
  }
}
