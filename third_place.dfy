/** The choice of the best third-placed teams after the group stage. */
module ThirdPlace {
  import opened Fixtures
  import opened Ranking

  /** How many third-placed teams go through to the round of 16. */
  const QUALIFYING_THIRDS: nat := 4

  /** The third row of every ranked group table, in group order. */
  function Thirds(tables: seq<seq<Row>>): (ts: seq<Row>)
    requires forall g :: 0 <= g < |tables| ==> |tables[g]| >= 3
    ensures |ts| == |tables|
    ensures forall g :: 0 <= g < |tables| ==> ts[g] == tables[g][2]
  {
    if tables == [] then [] else [tables[0][2]] + Thirds(tables[1..])
  }

  /** The third-placed rows ranked by (Pts, GD, GF), of which the first four go through (all of
      them when there are fewer than four groups). The selection is ranked itself, takes only
      third-placed rows, and no third-placed row left out ranks above one that was taken. */
  function BestThirdRows(tables: seq<seq<Row>>): (best: seq<Row>)
    requires forall g :: 0 <= g < |tables| ==> |tables[g]| >= 3
    ensures |best| == Min(QUALIFYING_THIRDS, |tables|)
    ensures Ranked(best)
    ensures multiset(best) <= multiset(Thirds(tables))
    ensures forall i :: 0 <= i < |best| ==> exists g :: 0 <= g < |tables| && best[i] == tables[g][2]
    ensures forall x, i :: x in multiset(Thirds(tables)) - multiset(best) && 0 <= i < |best| ==> !Above(x, best[i])
  {
    var k := Min(QUALIFYING_THIRDS, |tables|);
    SelectionFacts(tables, k);
    SortByKey(Thirds(tables))[..k]
  }

  lemma SelectionFacts(tables: seq<seq<Row>>, k: nat)
    requires forall g :: 0 <= g < |tables| ==> |tables[g]| >= 3
    requires k <= |tables|
    ensures var thirds := Thirds(tables);
      var best := SortByKey(thirds)[..k];
      && Ranked(best)
      && multiset(best) <= multiset(thirds)
      && (forall i :: 0 <= i < |best| ==> exists g :: 0 <= g < |tables| && best[i] == tables[g][2])
      && (forall x, i :: x in multiset(thirds) - multiset(best) && 0 <= i < |best| ==> !Above(x, best[i]))
  {
    var thirds := Thirds(tables);
    var sorted := SortByKey(thirds);
    SplitRanked(sorted, k, multiset(thirds));
    SelectedAreThirds(tables, sorted, k);
  }

  lemma SelectedAreThirds(tables: seq<seq<Row>>, sorted: seq<Row>, k: nat)
    requires forall g :: 0 <= g < |tables| ==> |tables[g]| >= 3
    requires multiset(sorted) == multiset(Thirds(tables)) && k <= |sorted|
    ensures forall i :: 0 <= i < k ==> exists g :: 0 <= g < |tables| && sorted[..k][i] == tables[g][2]
  {
    var thirds := Thirds(tables);
    forall i | 0 <= i < k ensures exists g :: 0 <= g < |tables| && sorted[..k][i] == tables[g][2] {
      assert sorted[i] in multiset(thirds);
      var g :| 0 <= g < |thirds| && thirds[g] == sorted[i];
    }
  }

  /** Cutting a ranked list of the rows `all` in two: the first part is ranked, is part of `all`,
      and no row of `all` outside it ranks above a row of it. */
  lemma SplitRanked(sorted: seq<Row>, k: nat, all: multiset<Row>)
    requires Ranked(sorted) && k <= |sorted| && multiset(sorted) == all
    ensures Ranked(sorted[..k])
    ensures multiset(sorted[..k]) <= all
    ensures forall x, i :: x in all - multiset(sorted[..k]) && 0 <= i < k ==> !Above(x, sorted[..k][i])
  {
    CutMultiset(sorted, k);
    forall x, i | x in all - multiset(sorted[..k]) && 0 <= i < k ensures !Above(x, sorted[..k][i]) {
      var j :| 0 <= j < |sorted[k..]| && sorted[k..][j] == x;
      assert sorted[k + j] == x;
    }
  }

  /** The rows of a list less those of its first k are those of the rest. */
  lemma CutMultiset(rows: seq<Row>, k: nat)
    requires k <= |rows|
    ensures multiset(rows) - multiset(rows[..k]) == multiset(rows[k..])
    ensures multiset(rows[..k]) <= multiset(rows)
  {
    assert rows == rows[..k] + rows[k..];
  }

  /** The names of the best third-placed teams, best first. */
  function BestThirds(tables: seq<seq<Row>>): (names: seq<string>)
    requires forall g :: 0 <= g < |tables| ==> |tables[g]| >= 3
    ensures |names| == Min(QUALIFYING_THIRDS, |tables|)
    ensures forall i :: 0 <= i < |names| ==> exists g :: 0 <= g < |tables| && names[i] == tables[g][2].team
  {
    var best := BestThirdRows(tables);
    Names(best)
  }
}
