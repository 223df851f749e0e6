/**
 The import's grouping step (src/Dashboard.js:67-70): for every client type, in the
 fixed order of `Types`, keep the decoded rows whose ClientType is exactly that type and
 add up their Income, a missing Income counting 0. Rows of any other type are dropped.
 */
module Grouping {
  import opened Wrappers
  import opened Charts

  /** What one row adds to a total: its Income, or 0 when the cell is missing. */
  function Contribution(row: Row): (v: int)
    ensures row.income == Some(v) || (row.income.None? && v == 0)
  {
    match row.income
    case None => 0
    case Some(v) => v
  }

  /** The rows whose ClientType is exactly `t` (the `filter`), each as often as in `rows`. */
  function Matching(rows: seq<Row>, t: string): (r: seq<Row>)
    ensures forall x :: multiset(r)[x] == if x.clientType == Some(t) then multiset(rows)[x] else 0
  {
    if rows == [] then []
    else
      assert rows == [rows[0]] + rows[1..];
      (if rows[0].clientType == Some(t) then [rows[0]] else []) + Matching(rows[1..], t)
  }

  /** The `reduce` over the filtered rows: a left fold from the seed 0. */
  function IncomeSum(rows: seq<Row>): (r: int)
    ensures (forall k :: 0 <= k < |rows| ==> rows[k].income.None?) ==> r == 0
    ensures (forall k :: 0 <= k < |rows| ==> Contribution(rows[k]) >= 0) ==> r >= 0
  {
    if rows == [] then 0 else IncomeSum(rows[..|rows| - 1]) + Contribution(rows[|rows| - 1])
  }

  /** The grouped series: one point per client type, in the order of `Types`. */
  function Group(rows: seq<Row>): (r: seq<Point>)
    ensures |r| == |Types|
    ensures forall i :: 0 <= i < |Types| ==> r[i].name == Types[i]
  {
    seq(|Types|, i requires 0 <= i < |Types| => Point(Types[i], IncomeSum(Matching(rows, Types[i]))))
  }

  /** What `row` adds to the total of type `t`. */
  function Share(row: Row, t: string): int {
    if row.clientType == Some(t) then Contribution(row) else 0
  }

  /** Reference definition of a type's total, independent of the filter and the fold:
      the income of every row of type `t`, a missing income counting 0. */
  function TypeTotal(rows: seq<Row>, t: string): int {
    if rows == [] then 0 else Share(rows[0], t) + TypeTotal(rows[1..], t)
  }

  lemma {:induction false} IncomeSumAppend(a: seq<Row>, b: seq<Row>)
    ensures IncomeSum(a + b) == IncomeSum(a) + IncomeSum(b)
    decreases |b|
  {
    if b == [] {
      assert a + b == a;
    } else {
      var b' := b[..|b| - 1];
      assert (a + b)[..|a + b| - 1] == a + b';
      assert (a + b)[|a + b| - 1] == b[|b| - 1];
      IncomeSumAppend(a, b');
    }
  }

  /** Filtering then folding adds up exactly the reference total. */
  lemma {:induction false} MatchingSum(rows: seq<Row>, t: string)
    ensures IncomeSum(Matching(rows, t)) == TypeTotal(rows, t)
  {
    if rows != [] {
      var head := if rows[0].clientType == Some(t) then [rows[0]] else [];
      MatchingSum(rows[1..], t);
      IncomeSumAppend(head, Matching(rows[1..], t));
      if head != [] {
        assert head[..0] == [];
      }
    }
  }

  /** Each grouped value is the reference total of its type. */
  lemma GroupTotals(rows: seq<Row>)
    ensures forall i :: 0 <= i < |Types| ==> Group(rows)[i] == Point(Types[i], TypeTotal(rows, Types[i]))
  {
    forall i | 0 <= i < |Types|
      ensures Group(rows)[i] == Point(Types[i], TypeTotal(rows, Types[i]))
    {
      MatchingSum(rows, Types[i]);
    }
  }

  lemma {:induction false} TypeTotalAppend(a: seq<Row>, b: seq<Row>, t: string)
    ensures TypeTotal(a + b, t) == TypeTotal(a, t) + TypeTotal(b, t)
  {
    if a == [] {
      assert a + b == b;
    } else {
      assert (a + b)[1..] == a[1..] + b;
      TypeTotalAppend(a[1..], b, t);
    }
  }

  /** Taking row `j` out of `b` removes exactly its share from a type's total. */
  lemma TypeTotalRemove(b: seq<Row>, j: nat, t: string)
    requires j < |b|
    ensures TypeTotal(b, t) == Share(b[j], t) + TypeTotal(b[..j] + b[j + 1..], t)
  {
    assert b == b[..j] + [b[j]] + b[j + 1..];
    TypeTotalAppend(b[..j] + [b[j]], b[j + 1..], t);
    TypeTotalAppend(b[..j], [b[j]], t);
    TypeTotalAppend(b[..j], b[j + 1..], t);
  }

  lemma MultisetRemove(b: seq<Row>, j: nat)
    requires j < |b|
    ensures multiset(b[..j] + b[j + 1..]) == multiset(b) - multiset{b[j]}
  {
    assert b == b[..j] + [b[j]] + b[j + 1..];
    assert multiset(b) == multiset(b[..j]) + multiset([b[j]]) + multiset(b[j + 1..]);
  }

  /** A type's total does not depend on the order of the rows. */
  lemma {:induction false} TypeTotalPermutation(a: seq<Row>, b: seq<Row>, t: string)
    requires multiset(a) == multiset(b)
    ensures TypeTotal(a, t) == TypeTotal(b, t)
    decreases |a|
  {
    if a == [] {
      assert |b| == |multiset(b)| == 0;
    } else {
      assert a == [a[0]] + a[1..];
      assert multiset(a[1..]) == multiset(a) - multiset{a[0]};
      assert a[0] in multiset(b);
      var j :| 0 <= j < |b| && b[j] == a[0];
      MultisetRemove(b, j);
      TypeTotalPermutation(a[1..], b[..j] + b[j + 1..], t);
      TypeTotalRemove(b, j, t);
    }
  }

  /** A type that no row carries gets the seed value 0. */
  lemma {:induction false} TypeTotalAbsent(rows: seq<Row>, t: string)
    requires forall k :: 0 <= k < |rows| ==> rows[k].clientType != Some(t)
    ensures TypeTotal(rows, t) == 0
  {
    if rows != [] {
      TypeTotalAbsent(rows[1..], t);
    }
  }

  /** The grouped series does not depend on the order of the imported rows. */
  lemma GroupOrderIndependent(a: seq<Row>, b: seq<Row>)
    requires multiset(a) == multiset(b)
    ensures Group(a) == Group(b)
  {
    GroupTotals(a);
    GroupTotals(b);
    forall i | 0 <= i < |Types|
      ensures Group(a)[i] == Group(b)[i]
    {
      TypeTotalPermutation(a, b, Types[i]);
    }
  }

  /** A type that no imported row carries is shown with value 0. */
  lemma GroupAbsentType(rows: seq<Row>, i: nat)
    requires i < |Types|
    requires forall k :: 0 <= k < |rows| ==> rows[k].clientType != Some(Types[i])
    ensures Group(rows)[i].value == 0
  {
    GroupTotals(rows);
    TypeTotalAbsent(rows, Types[i]);
  }

  /** Appending one row raises only the entry of its own type, by its income, and
      leaves every other entry as it was. */
  lemma GroupAppendRow(rows: seq<Row>, row: Row)
    ensures forall i :: 0 <= i < |Types| ==>
      Group(rows + [row])[i].value
        == Group(rows)[i].value + (if row.clientType == Some(Types[i]) then Contribution(row) else 0)
  {
    GroupTotals(rows);
    GroupTotals(rows + [row]);
    forall i | 0 <= i < |Types|
      ensures TypeTotal(rows + [row], Types[i])
        == TypeTotal(rows, Types[i]) + (if row.clientType == Some(Types[i]) then Contribution(row) else 0)
    {
      TypeTotalAppend(rows, [row], Types[i]);
    }
  }

  /** A row whose ClientType is missing or not one of `Types`, or whose Income is missing,
      changes no entry, wherever it stands among the other rows. */
  lemma GroupIgnoresRow(a: seq<Row>, row: Row, b: seq<Row>)
    requires row.clientType.None? || row.clientType.value !in Types || row.income.None?
    ensures Group(a + [row] + b) == Group(a + b)
  {
    GroupTotals(a + [row] + b);
    GroupTotals(a + b);
    forall i | 0 <= i < |Types|
      ensures TypeTotal(a + [row] + b, Types[i]) == TypeTotal(a + b, Types[i])
    {
      TypeTotalAppend(a + [row], b, Types[i]);
      TypeTotalAppend(a, [row], Types[i]);
      TypeTotalAppend(a, b, Types[i]);
      assert Share(row, Types[i]) == 0;
    }
  }

  /** The sum of the values of a series. */
  function ValueSum(ps: seq<Point>): int {
    if ps == [] then 0 else ps[0].value + ValueSum(ps[1..])
  }

  /** What `row` adds when its ClientType is one of `ts`. */
  function KnownShare(row: Row, ts: seq<string>): int {
    if row.clientType.Some? && row.clientType.value in ts then Contribution(row) else 0
  }

  /** The income of the rows whose ClientType is one of `ts`. */
  function KnownIncome(rows: seq<Row>, ts: seq<string>): int {
    if rows == [] then 0 else KnownShare(rows[0], ts) + KnownIncome(rows[1..], ts)
  }

  /** The reference totals of the types `ts`, added up. */
  function TotalsOver(rows: seq<Row>, ts: seq<string>): int {
    if ts == [] then 0 else TypeTotal(rows, ts[0]) + TotalsOver(rows, ts[1..])
  }

  /** What one row adds to the totals of the types `ts`. */
  function ShareOver(row: Row, ts: seq<string>): int {
    if ts == [] then 0 else Share(row, ts[0]) + ShareOver(row, ts[1..])
  }

  lemma {:induction false} ShareOverDistinct(row: Row, ts: seq<string>)
    requires Distinct(ts)
    ensures ShareOver(row, ts) == KnownShare(row, ts)
  {
    if ts != [] {
      assert Distinct(ts[1..]) by {
        forall i, j | 0 <= i < j < |ts[1..]| ensures ts[1..][i] != ts[1..][j] {
          assert ts[1..][i] == ts[i + 1] && ts[1..][j] == ts[j + 1];
        }
      }
      ShareOverDistinct(row, ts[1..]);
      assert ts == [ts[0]] + ts[1..];
      if row.clientType == Some(ts[0]) {
        assert ts[0] !in ts[1..] by {
          forall k | 0 <= k < |ts[1..]| ensures ts[1..][k] != ts[0] {
            assert ts[1..][k] == ts[k + 1];
          }
        }
      }
    }
  }

  lemma {:induction false} TotalsOverSplit(rows: seq<Row>, ts: seq<string>)
    requires rows != []
    ensures TotalsOver(rows, ts) == ShareOver(rows[0], ts) + TotalsOver(rows[1..], ts)
  {
    if ts != [] {
      TotalsOverSplit(rows, ts[1..]);
    }
  }

  lemma {:induction false} TotalsOverKnown(rows: seq<Row>, ts: seq<string>)
    requires Distinct(ts)
    ensures TotalsOver(rows, ts) == KnownIncome(rows, ts)
  {
    if rows == [] {
      TotalsOverEmpty(ts);
    } else {
      TotalsOverSplit(rows, ts);
      ShareOverDistinct(rows[0], ts);
      TotalsOverKnown(rows[1..], ts);
    }
  }

  lemma {:induction false} TotalsOverEmpty(ts: seq<string>)
    ensures TotalsOver([], ts) == 0
  {
    if ts != [] {
      TotalsOverEmpty(ts[1..]);
    }
  }

  lemma {:induction false} ValueSumTotals(rows: seq<Row>, ps: seq<Point>, ts: seq<string>)
    requires |ps| == |ts|
    requires forall i :: 0 <= i < |ps| ==> ps[i].value == TypeTotal(rows, ts[i])
    ensures ValueSum(ps) == TotalsOver(rows, ts)
  {
    if ps != [] {
      ValueSumTotals(rows, ps[1..], ts[1..]);
    }
  }

  /** The grouped values add up to the income of exactly the rows whose type is one of
      `Types`: no row is counted twice, and only rows of another type are lost. */
  lemma GroupConservesKnownIncome(rows: seq<Row>)
    ensures ValueSum(Group(rows)) == KnownIncome(rows, Types)
  {
    GroupTotals(rows);
    ValueSumTotals(rows, Group(rows), Types);
    TypesDistinct();
    TotalsOverKnown(rows, Types);
  }

  /** The total of three rows is the sum of their shares. */
  lemma TypeTotalOfThree(x: Row, y: Row, z: Row, t: string)
    ensures TypeTotal([x, y, z], t) == Share(x, t) + Share(y, t) + Share(z, t)
  {
    var rows := [x, y, z];
    assert rows[1..] == [y, z] && [y, z][1..] == [z] && [z][1..] == [];
    assert TypeTotal([z], t) == Share(z, t) + TypeTotal([], t);
    assert TypeTotal([y, z], t) == Share(y, t) + TypeTotal([z], t);
  }

  /** The three-row example: two Individual rows (100 and 200) and one Company row (300)
      group to 300, 300, 0, 0, 0. */
  lemma SampleImport(x: Row, y: Row, z: Row)
    requires x == Row(Some(Types[0]), Some(100)) && y == Row(Some(Types[0]), Some(200))
    requires z == Row(Some(Types[1]), Some(300))
    ensures Group([x, y, z])[0].value == 300 && Group([x, y, z])[1].value == 300
    ensures Group([x, y, z])[2].value == 0 && Group([x, y, z])[3].value == 0 && Group([x, y, z])[4].value == 0
  {
    GroupTotals([x, y, z]);
    SampleTotals(x, y, z);
  }

  lemma SampleTotals(x: Row, y: Row, z: Row)
    requires x == Row(Some(Types[0]), Some(100)) && y == Row(Some(Types[0]), Some(200))
    requires z == Row(Some(Types[1]), Some(300))
    ensures TypeTotal([x, y, z], Types[0]) == 300 && TypeTotal([x, y, z], Types[1]) == 300
    ensures TypeTotal([x, y, z], Types[2]) == 0 && TypeTotal([x, y, z], Types[3]) == 0
    ensures TypeTotal([x, y, z], Types[4]) == 0
  {
    TypesDistinct();
    forall i | 0 <= i < |Types|
      ensures TypeTotal([x, y, z], Types[i]) == Share(x, Types[i]) + Share(y, Types[i]) + Share(z, Types[i])
    {
      TypeTotalOfThree(x, y, z, Types[i]);
    }
  }
}
