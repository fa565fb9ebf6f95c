/** Group table rows and their ranking by points, then goal difference, then goals for, all
    descending. */
module Ranking {

  /** One row of a group table, with the columns kept after ranking. */
  datatype Row = Row(team: string, pts: int, gf: int, ga: int, gd: int)

  /** a ranks strictly above b under the key (Pts, GD, GF), compared lexicographically. */
  predicate Above(a: Row, b: Row)
  {
    a.pts > b.pts || (a.pts == b.pts && (a.gd > b.gd || (a.gd == b.gd && a.gf > b.gf)))
  }

  /** Non-increasing by the key: no row ranks strictly above a row placed before it. */
  ghost predicate Ranked(rows: seq<Row>)
  {
    forall i, j :: 0 <= i < j < |rows| ==> !Above(rows[j], rows[i])
  }

  /** Places x before the first row it does not rank below. */
  function Insert(x: Row, rows: seq<Row>): seq<Row>
  {
    if rows == [] then [x]
    else if !Above(rows[0], x) then [x] + rows
    else [rows[0]] + Insert(x, rows[1..])
  }

  lemma {:induction false} InsertPermutes(x: Row, rows: seq<Row>)
    ensures multiset(Insert(x, rows)) == multiset(rows) + multiset{x}
    ensures forall y :: y in Insert(x, rows) ==> y == x || y in rows
  {
    if rows != [] && Above(rows[0], x) {
      InsertPermutes(x, rows[1..]);
      assert rows == [rows[0]] + rows[1..];
    }
  }

  lemma {:induction false} InsertKeepsRanked(x: Row, rows: seq<Row>)
    requires Ranked(rows)
    ensures Ranked(Insert(x, rows))
  {
    if rows == [] {
    } else if !Above(rows[0], x) {
      var r := Insert(x, rows);
      forall i, j | 0 <= i < j < |r| ensures !Above(r[j], r[i]) {
        if i == 0 {
          assert r[j] == rows[j - 1];
          assert !Above(rows[j - 1], rows[0]) || j - 1 == 0;
        } else {
          assert r[i] == rows[i - 1] && r[j] == rows[j - 1];
        }
      }
    } else {
      var tail := Insert(x, rows[1..]);
      InsertKeepsRanked(x, rows[1..]);
      InsertPermutes(x, rows[1..]);
      var r := [rows[0]] + tail;
      forall i, j | 0 <= i < j < |r| ensures !Above(r[j], r[i]) {
        if i == 0 {
          assert r[j] == tail[j - 1];
          assert tail[j - 1] in tail;
          if tail[j - 1] != x {
            var k :| 0 <= k < |rows[1..]| && rows[1..][k] == tail[j - 1];
            assert rows[k + 1] == tail[j - 1];
          }
        } else {
          assert r[i] == tail[i - 1] && r[j] == tail[j - 1];
        }
      }
    }
  }

  /** The rows sorted descending by (Pts, GD, GF); the order among rows with equal keys is
      whatever this insertion sort produces and nothing below depends on it. */
  function SortByKey(rows: seq<Row>): (r: seq<Row>)
    ensures Ranked(r)
    ensures multiset(r) == multiset(rows)
    ensures |r| == |rows|
  {
    if rows == [] then []
    else
      var rest := SortByKey(rows[1..]);
      InsertPermutes(rows[0], rest);
      InsertKeepsRanked(rows[0], rest);
      assert rows == [rows[0]] + rows[1..];
      Insert(rows[0], rest)
  }

  /** The team names of the rows, in row order. */
  function Names(rows: seq<Row>): (ns: seq<string>)
    ensures |ns| == |rows|
    ensures forall i :: 0 <= i < |rows| ==> ns[i] == rows[i].team
  {
    if rows == [] then [] else [rows[0].team] + Names(rows[1..])
  }

  /** The first row of a ranked table ranks at least as high as every other row, and so does the
      second row with respect to every row after it: the group winner and the runner-up. */
  lemma {:induction false} TopOfRanked(rows: seq<Row>)
    requires Ranked(rows) && |rows| >= 2
    ensures forall j :: 0 < j < |rows| ==> !Above(rows[j], rows[0])
    ensures forall j :: 1 < j < |rows| ==> !Above(rows[j], rows[1])
  {
  }

  /** The numeric columns of a group table. */
  datatype Column = Pts | GF | GA | GD

  function Get(r: Row, c: Column): int
  {
    match c
    case Pts => r.pts
    case GF => r.gf
    case GA => r.ga
    case GD => r.gd
  }

  /** Sum of one column over the rows. */
  function Total(rows: seq<Row>, c: Column): int
  {
    if rows == [] then 0 else Get(rows[0], c) + Total(rows[1..], c)
  }

  lemma {:induction false} InsertAddsToTotals(x: Row, rows: seq<Row>, c: Column)
    ensures Total(Insert(x, rows), c) == Get(x, c) + Total(rows, c)
  {
    if rows != [] && Above(rows[0], x) {
      InsertAddsToTotals(x, rows[1..], c);
      assert ([rows[0]] + Insert(x, rows[1..]))[1..] == Insert(x, rows[1..]);
    } else if rows != [] {
      assert ([x] + rows)[1..] == rows;
    }
  }

  /** Sorting a table changes no column total. */
  lemma {:induction false} SortKeepsTotals(rows: seq<Row>, c: Column)
    ensures Total(SortByKey(rows), c) == Total(rows, c)
  {
    if rows != [] {
      SortKeepsTotals(rows[1..], c);
      InsertAddsToTotals(rows[0], SortByKey(rows[1..]), c);
    }
  }

  // ---------------------------------------------------------------------------------------------
  // Rows per team.

  /** Number of rows of team t. */
  function Count(rows: seq<Row>, t: string): nat
  {
    if rows == [] then 0 else (if rows[0].team == t then 1 else 0) + Count(rows[1..], t)
  }

  /** Two tables hold the same teams, each as many times. */
  ghost predicate SameTeams(a: seq<Row>, b: seq<Row>) {
    forall t :: Count(a, t) == Count(b, t)
  }

  /** Tables with the same team in every row have as many rows of every team. */
  lemma {:induction false} CountSameTeams(a: seq<Row>, b: seq<Row>, t: string)
    requires |a| == |b| && forall i :: 0 <= i < |a| ==> a[i].team == b[i].team
    ensures Count(a, t) == Count(b, t)
  {
    if a != [] {
      CountSameTeams(a[1..], b[1..], t);
    }
  }

  lemma {:induction false} InsertCount(x: Row, rows: seq<Row>, t: string)
    ensures Count(Insert(x, rows), t) == (if x.team == t then 1 else 0) + Count(rows, t)
  {
    if rows != [] && Above(rows[0], x) {
      InsertCount(x, rows[1..], t);
      assert ([rows[0]] + Insert(x, rows[1..]))[1..] == Insert(x, rows[1..]);
    } else if rows != [] {
      assert ([x] + rows)[1..] == rows;
    }
  }

  /** Sorting keeps the number of rows of every team. */
  lemma {:induction false} SortKeepsCounts(rows: seq<Row>, t: string)
    ensures Count(SortByKey(rows), t) == Count(rows, t)
  {
    if rows != [] {
      SortKeepsCounts(rows[1..], t);
      InsertCount(rows[0], SortByKey(rows[1..]), t);
    }
  }
}
