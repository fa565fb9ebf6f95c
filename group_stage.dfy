/** The group stage: team names cleaned of the host marker, every fixture of a group credited to
    the two teams' rows, goal difference set, and the table ranked. */
module GroupStage {
  import opened Fixtures
  import opened Predictor
  import opened Ranking

  // ---------------------------------------------------------------------------------------------
  // Removing the host marker: every match of the pattern \s*\(H\) is deleted.

  /** The characters Python's `\s` matches in a text pattern (those for which str.isspace holds). */
  predicate IsSpace(c: char)
  {
    c == ' ' || ('\t' <= c <= '\r') || ('\U{1C}' <= c <= '\U{1F}') || c == '\U{85}' || c == '\U{A0}'
    || c == '\U{1680}' || ('\U{2000}' <= c <= '\U{200A}') || c == '\U{2028}' || c == '\U{2029}'
    || c == '\U{202F}' || c == '\U{205F}' || c == '\U{3000}'
  }

  /** The end of the run of whitespace that starts at i. */
  function SpaceRunEnd(s: string, i: nat): (j: nat)
    requires i <= |s|
    ensures i <= j <= |s|
    ensures forall k :: i <= k < j ==> IsSpace(s[k])
    ensures j < |s| ==> !IsSpace(s[j])
    decreases |s| - i
  {
    if i < |s| && IsSpace(s[i]) then SpaceRunEnd(s, i + 1) else i
  }

  /** The three characters "(H)" start at position j. */
  predicate MarkerAt(s: string, j: nat)
  {
    j + 3 <= |s| && s[j] == '(' && s[j + 1] == 'H' && s[j + 2] == ')'
  }

  /** The text contains "(H)" somewhere. */
  ghost predicate HasMarker(s: string)
  {
    exists j: nat :: MarkerAt(s, j)
  }

  /** The scan of a regular-expression substitution from position i: where whitespace followed by
      "(H)" starts, the whole match is dropped and the scan resumes after it; elsewhere one
      character is kept and the scan moves on. */
  function StripFrom(s: string, i: nat): string
    requires i <= |s|
    decreases |s| - i
  {
    if i == |s| then ""
    else
      var j := SpaceRunEnd(s, i);
      if MarkerAt(s, j) then StripFrom(s, j + 3) else [s[i]] + StripFrom(s, i + 1)
  }

  /** A team name with every host marker removed. */
  function NormalizeName(s: string): string
  {
    StripFrom(s, 0)
  }

  lemma {:induction false} StripFromUnmarked(s: string, i: nat)
    requires i <= |s| && !HasMarker(s)
    ensures StripFrom(s, i) == s[i..]
    decreases |s| - i
  {
    if i < |s| {
      var j := SpaceRunEnd(s, i);
      assert !MarkerAt(s, j);
      StripFromUnmarked(s, i + 1);
      assert s[i..] == [s[i]] + s[i + 1..];
    }
  }

  /** A name without a host marker is left as it is. */
  lemma UnmarkedNameUnchanged(s: string)
    requires !HasMarker(s)
    ensures NormalizeName(s) == s
  {
    StripFromUnmarked(s, 0);
  }

  /** At the end of the name the scan meets the whitespace and the marker and drops both. */
  lemma HostTailDropped(s: string)
    ensures StripFrom(s + " (H)", |s|) == ""
  {
    var t := s + " (H)";
    assert IsSpace(t[|s|]) && !IsSpace(t[|s| + 1]);
    assert SpaceRunEnd(t, |s|) == |s| + 1;
    assert MarkerAt(t, |s| + 1);
  }

  /** Before the end of the name no match of the pattern starts. */
  lemma NoMatchInsideName(s: string, i: nat)
    requires i < |s| && !HasMarker(s) && !IsSpace(s[|s| - 1])
    ensures !MarkerAt(s + " (H)", SpaceRunEnd(s + " (H)", i))
  {
    var t := s + " (H)";
    var j := SpaceRunEnd(t, i);
    assert t[|s| - 1] == s[|s| - 1];
    assert j < |s|;
    assert !MarkerAt(s, j);
    assert t[|s|] == ' ' && forall k :: 0 <= k < |s| ==> t[k] == s[k];
  }

  lemma {:induction false} StripFromHostSuffix(s: string, i: nat)
    requires i <= |s| && !HasMarker(s)
    requires |s| > 0 ==> !IsSpace(s[|s| - 1])
    ensures StripFrom(s + " (H)", i) == s[i..]
    decreases |s| - i
  {
    if i == |s| {
      HostTailDropped(s);
    } else {
      NoMatchInsideName(s, i);
      StripFromHostSuffix(s, i + 1);
      assert (s + " (H)")[i] == s[i];
      assert s[i..] == [s[i]] + s[i + 1..];
    }
  }

  /** The host annotation " (H)" at the end of a name is removed and nothing else changes:
      "Germany (H)" becomes "Germany". */
  lemma HostSuffixRemoved(s: string)
    requires !HasMarker(s)
    requires |s| > 0 ==> !IsSpace(s[|s| - 1])
    ensures NormalizeName(s + " (H)") == s
  {
    StripFromHostSuffix(s, 0);
  }

  // ---------------------------------------------------------------------------------------------
  // Truncation of the predicted expectations.

  /** Python's int() of a float: the integer part, rounded toward zero. */
  function Trunc(x: real): (n: int)
    ensures 0.0 <= x ==> 0 <= n && n as real <= x < n as real + 1.0
    ensures x < 0.0 ==> n <= 0 && n as real - 1.0 < x <= n as real
  {
    if x >= 0.0 then x.Floor else -((-x).Floor)
  }

  // ---------------------------------------------------------------------------------------------
  // The group table.

  /** The table as the group stage starts it: names cleaned, goals for and against set to zero,
      points kept as read. */
  function InitTable(rows: seq<Row>): (t: seq<Row>)
    ensures |t| == |rows|
    ensures forall i :: 0 <= i < |rows| ==>
      t[i].team == NormalizeName(rows[i].team) && t[i].pts == rows[i].pts && t[i].gf == 0 && t[i].ga == 0
    ensures Total(t, GF) == 0 && Total(t, GA) == 0
  {
    if rows == [] then []
    else [rows[0].(team := NormalizeName(rows[0].team), gf := 0, ga := 0)] + InitTable(rows[1..])
  }

  /** The six updates of one fixture applied to one row, in the order the source makes them:
      home points, away points, home goals for, home goals against, away goals for, away goals
      against, each by the truncated prediction. */
  function Credit(r: Row, home: string, away: string, p: Prediction): (c: Row)
    ensures c.team == r.team && c.gd == r.gd
    ensures c.pts == r.pts + (if r.team == home then Trunc(p.pointsHome) else 0)
                           + (if r.team == away then Trunc(p.pointsAway) else 0)
    ensures c.gf == r.gf + (if r.team == home then Trunc(p.goalsHome) else 0)
                         + (if r.team == away then Trunc(p.goalsAway) else 0)
    ensures c.ga == r.ga + (if r.team == home then Trunc(p.goalsAway) else 0)
                         + (if r.team == away then Trunc(p.goalsHome) else 0)
  {
    var r1 := if r.team == home then r.(pts := r.pts + Trunc(p.pointsHome)) else r;
    var r2 := if r1.team == away then r1.(pts := r1.pts + Trunc(p.pointsAway)) else r1;
    var r3 := if r2.team == home then r2.(gf := r2.gf + Trunc(p.goalsHome)) else r2;
    var r4 := if r3.team == home then r3.(ga := r3.ga + Trunc(p.goalsAway)) else r3;
    var r5 := if r4.team == away then r4.(gf := r4.gf + Trunc(p.goalsAway)) else r4;
    if r5.team == away then r5.(ga := r5.ga + Trunc(p.goalsHome)) else r5
  }

  /** One fixture simulated: every row is credited, which changes only the rows of the two teams. */
  function ApplyFixture(rows: seq<Row>, home: string, away: string, p: Prediction): (r: seq<Row>)
    ensures |r| == |rows|
    ensures forall i :: 0 <= i < |rows| ==> r[i].team == rows[i].team && r[i].gd == rows[i].gd
  {
    if rows == [] then [] else [Credit(rows[0], home, away, p)] + ApplyFixture(rows[1..], home, away, p)
  }

  /** The effect of one fixture on each row: the home team gains the truncated home points and
      home goals for and the truncated away goals against, the away team the other way round, a
      fixture of a team against itself credits both, and every other row is unchanged. */
  lemma {:induction false} FixtureEffect(rows: seq<Row>, home: string, away: string, p: Prediction)
    ensures var r := ApplyFixture(rows, home, away, p);
      && (forall i :: 0 <= i < |rows| && rows[i].team != home && rows[i].team != away ==> r[i] == rows[i])
      && (forall i :: 0 <= i < |rows| && rows[i].team == home && home != away ==>
            r[i] == rows[i].(pts := rows[i].pts + Trunc(p.pointsHome),
                             gf := rows[i].gf + Trunc(p.goalsHome),
                             ga := rows[i].ga + Trunc(p.goalsAway)))
      && (forall i :: 0 <= i < |rows| && rows[i].team == away && home != away ==>
            r[i] == rows[i].(pts := rows[i].pts + Trunc(p.pointsAway),
                             gf := rows[i].gf + Trunc(p.goalsAway),
                             ga := rows[i].ga + Trunc(p.goalsHome)))
      && (forall i :: 0 <= i < |rows| && rows[i].team == home && home == away ==>
            r[i] == rows[i].(pts := rows[i].pts + Trunc(p.pointsHome) + Trunc(p.pointsAway),
                             gf := rows[i].gf + Trunc(p.goalsHome) + Trunc(p.goalsAway),
                             ga := rows[i].ga + Trunc(p.goalsAway) + Trunc(p.goalsHome)))
  {
    forall i | 0 <= i < |rows| {
      CreditedAt(rows, home, away, p, i);
    }
  }

  lemma {:induction false} CreditedAt(rows: seq<Row>, home: string, away: string, p: Prediction, i: nat)
    requires i < |rows|
    ensures ApplyFixture(rows, home, away, p)[i] == Credit(rows[i], home, away, p)
  {
    if i > 0 {
      CreditedAt(rows[1..], home, away, p, i - 1);
    }
  }

  /** What one fixture adds to the column totals: the truncated home values once per row of the
      home team and the truncated away values once per row of the away team. */
  lemma {:induction false} FixtureTotals(rows: seq<Row>, home: string, away: string, p: Prediction)
    ensures Total(ApplyFixture(rows, home, away, p), Pts)
            == Total(rows, Pts) + Count(rows, home) * Trunc(p.pointsHome) + Count(rows, away) * Trunc(p.pointsAway)
    ensures Total(ApplyFixture(rows, home, away, p), GF)
            == Total(rows, GF) + Count(rows, home) * Trunc(p.goalsHome) + Count(rows, away) * Trunc(p.goalsAway)
    ensures Total(ApplyFixture(rows, home, away, p), GA)
            == Total(rows, GA) + Count(rows, home) * Trunc(p.goalsAway) + Count(rows, away) * Trunc(p.goalsHome)
  {
    if rows != [] {
      FixtureTotals(rows[1..], home, away, p);
      var r := ApplyFixture(rows, home, away, p);
      assert r[1..] == ApplyFixture(rows[1..], home, away, p);
      var c := Credit(rows[0], home, away, p);
      assert r[0] == c;
      CountTimes(rows, home, Trunc(p.pointsHome));
      CountTimes(rows, away, Trunc(p.pointsAway));
      CountTimes(rows, home, Trunc(p.goalsHome));
      CountTimes(rows, away, Trunc(p.goalsAway));
      CountTimes(rows, home, Trunc(p.goalsAway));
      CountTimes(rows, away, Trunc(p.goalsHome));
    }
  }

  lemma CountTimes(rows: seq<Row>, t: string, x: int)
    requires rows != []
    ensures Count(rows, t) * x == (if rows[0].team == t then x else 0) + Count(rows[1..], t) * x
  {
  }

  /** The fixtures of a group: those whose home team has a row in the group table, each kept as
      often as the stage lists it, in stage order. */
  function GroupFixtures(table: seq<Row>, stage: seq<Fixture>): (fs: seq<Fixture>)
    ensures forall f :: f in fs <==> f in stage && f.home in Names(table)
    ensures forall f :: multiset(fs)[f] == if f.home in Names(table) then multiset(stage)[f] else 0
    ensures |fs| <= |stage|
  {
    if stage == [] then []
    else
      assert stage == [stage[0]] + stage[1..];
      if stage[0].home in Names(table) then [stage[0]] + GroupFixtures(table, stage[1..])
      else GroupFixtures(table, stage[1..])
  }

  /** The table after the fixtures fs, simulated one after another in list order. */
  function Accumulate(table: seq<Row>, fs: seq<Fixture>, predict: (string, string) -> Prediction): seq<Row>
  {
    if fs == [] then table
    else
      var f := fs[|fs| - 1];
      ApplyFixture(Accumulate(table, fs[..|fs| - 1], predict), f.home, f.away, predict(f.home, f.away))
  }

  lemma AccumulateStep(table: seq<Row>, fs: seq<Fixture>, k: nat, predict: (string, string) -> Prediction)
    requires k < |fs|
    ensures Accumulate(table, fs[..k + 1], predict)
            == ApplyFixture(Accumulate(table, fs[..k], predict), fs[k].home, fs[k].away, predict(fs[k].home, fs[k].away))
  {
    assert fs[..k + 1][..k] == fs[..k];
  }

  /** Every goal-difference cell set to goals for minus goals against. */
  function WithGoalDifference(rows: seq<Row>): (r: seq<Row>)
    ensures |r| == |rows|
    ensures forall i :: 0 <= i < |rows| ==> r[i] == rows[i].(gd := rows[i].gf - rows[i].ga)
  {
    if rows == [] then [] else [rows[0].(gd := rows[0].gf - rows[0].ga)] + WithGoalDifference(rows[1..])
  }

  /** Each fixture is between two teams with as many rows in the table as each other (one each,
      when the names are distinct and both teams are in the group). */
  ghost predicate Balanced(table: seq<Row>, fs: seq<Fixture>)
  {
    forall k :: 0 <= k < |fs| ==> Count(table, fs[k].home) == Count(table, fs[k].away)
  }

  lemma {:induction false} AccumulateKeepsTeams(table: seq<Row>, fs: seq<Fixture>, predict: (string, string) -> Prediction)
    ensures |Accumulate(table, fs, predict)| == |table|
    ensures forall i :: 0 <= i < |table| ==> Accumulate(table, fs, predict)[i].team == table[i].team
  {
    if fs != [] {
      AccumulateKeepsTeams(table, fs[..|fs| - 1], predict);
    }
  }

  /** When every fixture is balanced, the goals credited as goals for equal the goals credited as
      goals against, so the difference of the two totals never changes. */
  lemma {:induction false} GoalBalance(table: seq<Row>, fs: seq<Fixture>, predict: (string, string) -> Prediction)
    requires Balanced(table, fs)
    ensures Total(Accumulate(table, fs, predict), GF) - Total(Accumulate(table, fs, predict), GA)
            == Total(table, GF) - Total(table, GA)
  {
    if fs != [] {
      var init := fs[..|fs| - 1];
      assert Balanced(table, init) by {
        forall k | 0 <= k < |init| ensures Count(table, init[k].home) == Count(table, init[k].away) {
          assert init[k] == fs[k];
        }
      }
      GoalBalance(table, init, predict);
      var prev := Accumulate(table, init, predict);
      var f := fs[|fs| - 1];
      AccumulateKeepsTeams(table, init, predict);
      CountSameTeams(prev, table, f.home);
      CountSameTeams(prev, table, f.away);
      FixtureTotals(prev, f.home, f.away, predict(f.home, f.away));
    }
  }

  lemma {:induction false} GoalDifferenceTotal(rows: seq<Row>)
    ensures Total(WithGoalDifference(rows), GD) == Total(rows, GF) - Total(rows, GA)
  {
    if rows != [] {
      GoalDifferenceTotal(rows[1..]);
      assert WithGoalDifference(rows)[1..] == WithGoalDifference(rows[1..]);
    }
  }

  /** The finished table of a group: its fixtures played in list order, goal difference set, and
      the rows ranked. */
  function FinishedGroup(table: seq<Row>, stage: seq<Fixture>, predict: (string, string) -> Prediction): seq<Row>
  {
    SortByKey(WithGoalDifference(Accumulate(table, GroupFixtures(table, stage), predict)))
  }

  /** The finished table of a group is ranked and has as many rows as the table it started from;
      every row's goal difference is its goals for minus its goals against; every row is a team of
      the group, and every team has as many rows as it started with; and over balanced fixtures
      the goal differences add up to the goals for minus the goals against the table started with. */
  lemma FinishedTable(table: seq<Row>, stage: seq<Fixture>, predict: (string, string) -> Prediction)
    ensures var ranked := FinishedGroup(table, stage, predict);
      && Ranked(ranked)
      && |ranked| == |table|
      && (forall i :: 0 <= i < |ranked| ==> ranked[i].gd == ranked[i].gf - ranked[i].ga)
      && (forall i :: 0 <= i < |ranked| ==> exists j :: 0 <= j < |table| && ranked[i].team == table[j].team)
      && SameTeams(ranked, table)
      && (Balanced(table, GroupFixtures(table, stage)) ==> Total(ranked, GD) == Total(table, GF) - Total(table, GA))
  {
    var fs := GroupFixtures(table, stage);
    var rows := Accumulate(table, fs, predict);
    var finished := WithGoalDifference(rows);
    AccumulateKeepsTeams(table, fs, predict);
    SortedRowsFrom(finished, table);
    forall t ensures Count(SortByKey(finished), t) == Count(table, t) {
      SortKeepsCounts(finished, t);
      CountSameTeams(finished, table, t);
    }
    SortKeepsTotals(finished, GD);
    GoalDifferenceTotal(rows);
    if Balanced(table, fs) {
      GoalBalance(table, fs, predict);
    }
  }

  /** A group started from its initial table, whose goals are all zero, ends with goal
      differences that add up to zero when its fixtures are balanced. */
  lemma GoalDifferencesCancel(rows: seq<Row>, stage: seq<Fixture>, predict: (string, string) -> Prediction)
    requires Balanced(InitTable(rows), GroupFixtures(InitTable(rows), stage))
    ensures Total(FinishedGroup(InitTable(rows), stage, predict), GD) == 0
  {
    FinishedTable(InitTable(rows), stage, predict);
  }

  /** Sorting rows whose goal difference is goals for minus goals against, and whose teams are
      those of a table row by row, keeps both facts for every row. */
  lemma SortedRowsFrom(finished: seq<Row>, table: seq<Row>)
    requires |finished| == |table|
    requires forall j :: 0 <= j < |finished| ==> finished[j].gd == finished[j].gf - finished[j].ga
    requires forall j :: 0 <= j < |finished| ==> finished[j].team == table[j].team
    ensures var ranked := SortByKey(finished);
      && (forall i :: 0 <= i < |ranked| ==> ranked[i].gd == ranked[i].gf - ranked[i].ga)
      && (forall i :: 0 <= i < |ranked| ==> exists j :: 0 <= j < |table| && ranked[i].team == table[j].team)
  {
    var ranked := SortByKey(finished);
    forall i | 0 <= i < |ranked|
      ensures ranked[i].gd == ranked[i].gf - ranked[i].ga
      ensures exists j :: 0 <= j < |table| && ranked[i].team == table[j].team
    {
      assert ranked[i] in multiset(finished);
      var j :| 0 <= j < |finished| && finished[j] == ranked[i];
      assert ranked[i].team == table[j].team;
    }
  }

  /** The fixtures of one group played in list order, each crediting the two teams' rows with
      the truncated prediction. */
  method PlayFixtures(table: seq<Row>, fixtures: seq<Fixture>, predict: (string, string) -> Prediction)
    returns (rows: seq<Row>)
    ensures rows == Accumulate(table, fixtures, predict)
  {
    rows := table;
    for k := 0 to |fixtures|
      invariant rows == Accumulate(table, fixtures[..k], predict)
    {
      var f := fixtures[k];
      var p := predict(f.home, f.away);
      AccumulateStep(table, fixtures, k, predict);
      rows := ApplyFixture(rows, f.home, f.away, p);
    }
    assert fixtures[..|fixtures|] == fixtures;
  }

  /** The simulation of one group: its fixtures are played, goal difference is set and the table
      is ranked. */
  method SimulateGroup(table: seq<Row>, stage: seq<Fixture>, predict: (string, string) -> Prediction)
    returns (ranked: seq<Row>)
    ensures ranked == FinishedGroup(table, stage, predict)
  {
    var fixtures := GroupFixtures(table, stage);
    var rows := PlayFixtures(table, fixtures, predict);
    ranked := SortByKey(WithGoalDifference(rows));
  }
}
