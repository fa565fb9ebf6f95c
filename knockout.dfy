/** The knockout stage: placeholders in the fixtures of a round replaced by the teams they stand
    for, and every fixture decided by the predictor. A round is a fixed-size table updated in
    place, as the source updates its fixture tables. */
module Knockout {
  import opened Fixtures
  import opened Predictor

  // ---------------------------------------------------------------------------------------------
  // Placeholders and whole-cell replacement.

  /** The placeholder for the winner of a group ("Winner Group A") or of a match ("Winner Match 39"). */
  function WinnerLabel(code: string): string
  {
    "Winner " + code
  }

  /** The placeholder for the runner-up of a group ("Runner-up Group A"). */
  function RunnerUpLabel(group: string): string
  {
    "Runner-up " + group
  }

  /** The four placeholders for qualifying third-placed teams, in the order of the ranked thirds
      they are given. */
  const THIRD_LABELS: seq<string> := ["3rd Group D/E/F", "3rd Group A/D/E/F", "3rd Group A/B/C", "3rd Group A/B/C/D"]

  /** A cell found among the keys of the substitution becomes its value; any other cell stays. */
  function Replace(cell: string, m: map<string, string>): (r: string)
    ensures cell in m ==> r == m[cell]
    ensures cell !in m ==> r == cell
  {
    if cell in m then m[cell] else cell
  }

  /** One substitution over a fixture's home, away and score cells. */
  function Substituted(f: Fixture, m: map<string, string>): Fixture
  {
    f.(home := Replace(f.home, m), away := Replace(f.away, m), score := Replace(f.score, m))
  }

  /** A substitution is made once, not chained: a cell that is a key becomes its value even when
      that value is itself a key, which only a second substitution would replace again. */
  lemma ReplaceNotChained(a: string, b: string, c: string)
    requires a != b
    ensures Replace(a, map[a := b, b := c]) == b
    ensures Replace(Replace(a, map[a := b, b := c]), map[a := b, b := c]) == c
  {
  }

  /** When no value of a substitution is also one of its keys, substituting a second time changes
      nothing. */
  lemma SubstitutedSettles(f: Fixture, m: map<string, string>)
    requires forall k :: k in m ==> m[k] !in m
    ensures Substituted(Substituted(f, m), m) == Substituted(f, m)
  {
  }

  // ---------------------------------------------------------------------------------------------
  // Deciding a fixture.

  /** The winner of a knockout fixture: the home team when its predicted points are strictly
      higher, the away team otherwise, a tie included. */
  function WinnerOf(f: Fixture, predict: (string, string) -> Prediction): (w: string)
    ensures w == f.home || w == f.away
    ensures predict(f.home, f.away).pointsHome > predict(f.home, f.away).pointsAway ==> w == f.home
    ensures predict(f.home, f.away).pointsHome <= predict(f.home, f.away).pointsAway ==> w == f.away
  {
    var p := predict(f.home, f.away);
    if p.pointsHome > p.pointsAway then f.home else f.away
  }

  /** Every fixture of a round gets its winner, in row order; nothing else changes. */
  method GetWinners(round: array<Fixture>, predict: (string, string) -> Prediction)
    modifies round
    ensures forall i :: 0 <= i < round.Length ==> round[i] == old(round[i]).(winner := WinnerOf(old(round[i]), predict))
  {
    for i := 0 to round.Length
      invariant forall k :: 0 <= k < i ==> round[k] == old(round[k]).(winner := WinnerOf(old(round[k]), predict))
      invariant forall k :: i <= k < round.Length ==> round[k] == old(round[k])
    {
      var f := round[i];
      var p := predict(f.home, f.away);
      var winner;
      if p.pointsHome > p.pointsAway {
        winner := f.home;
      } else {
        winner := f.away;
      }
      round[i] := f.(winner := winner);
    }
  }

  // ---------------------------------------------------------------------------------------------
  // Advancing the winners of one round into the next.

  /** The substitution made for one decided fixture: its winner placeholder becomes its winner. */
  function AdvanceMap(f: Fixture): map<string, string>
  {
    map[WinnerLabel(f.score) := f.winner]
  }

  /** A cell after the substitutions for the fixtures of `current`, one after another. */
  function Advanced(cell: string, current: seq<Fixture>): string
  {
    if current == [] then cell
    else Replace(Advanced(cell, current[..|current| - 1]), AdvanceMap(current[|current| - 1]))
  }

  /** A fixture of the next round after the substitutions, its winner reset to unknown. */
  function AdvancedFixture(f: Fixture, current: seq<Fixture>): Fixture
  {
    Fixture(Advanced(f.home, current), Advanced(f.away, current), Advanced(f.score, current), "?")
  }

  /** The winners of the current round written into the placeholders of the next round, and the
      next round's winners reset to unknown. */
  method UpdateTable(current: seq<Fixture>, next: array<Fixture>)
    modifies next
    ensures forall j :: 0 <= j < next.Length ==> next[j] == AdvancedFixture(old(next[j]), current)
  {
    for i := 0 to |current|
      invariant forall j :: 0 <= j < next.Length ==>
        next[j] == AdvancedFixture(old(next[j]), current[..i]).(winner := old(next[j]).winner)
    {
      var winner := current[i].winner;
      var code := current[i].score;
      var m := map[WinnerLabel(code) := winner];
      assert current[..i + 1][..i] == current[..i];
      forall j | 0 <= j < next.Length {
        next[j] := Substituted(next[j], m);
      }
    }
    assert current[..|current|] == current;
    forall j | 0 <= j < next.Length {
      next[j] := next[j].(winner := "?");
    }
  }

  /** The codes of the fixtures are pairwise distinct and no winner is itself the placeholder of
      one of them, so that no cell is substituted twice. */
  ghost predicate WellLabelled(current: seq<Fixture>)
  {
    && (forall i, k :: 0 <= i < k < |current| ==> current[i].score != current[k].score)
    && (forall i, k :: 0 <= i < |current| && 0 <= k < |current| ==> current[i].winner != WinnerLabel(current[k].score))
  }

  lemma LabelInjective(a: string, b: string)
    ensures WinnerLabel(a) == WinnerLabel(b) ==> a == b
  {
    if WinnerLabel(a) == WinnerLabel(b) {
      assert a == WinnerLabel(a)[7..];
      assert b == WinnerLabel(b)[7..];
    }
  }

  /** Over well labelled fixtures, a cell that is the winner placeholder of a fixture's code
      becomes that fixture's winner, and any other cell is left as it was. */
  lemma {:induction false} AdvancedCell(cell: string, current: seq<Fixture>)
    requires WellLabelled(current)
    ensures forall i :: 0 <= i < |current| && cell == WinnerLabel(current[i].score) ==>
      Advanced(cell, current) == current[i].winner
    ensures (forall i :: 0 <= i < |current| ==> cell != WinnerLabel(current[i].score)) ==>
      Advanced(cell, current) == cell
  {
    if current != [] {
      var n := |current| - 1;
      var init := current[..n];
      assert WellLabelled(init) by {
        assert forall i :: 0 <= i < n ==> init[i] == current[i];
      }
      AdvancedCell(cell, init);
      forall i | 0 <= i < |current| && cell == WinnerLabel(current[i].score)
        ensures Advanced(cell, current) == current[i].winner
      {
        if i < n {
          assert init[i] == current[i];
          assert current[i].winner != WinnerLabel(current[n].score);
        } else {
          forall k | 0 <= k < n ensures cell != WinnerLabel(init[k].score) {
            assert init[k] == current[k];
            LabelInjective(init[k].score, current[n].score);
          }
        }
      }
    }
  }

  /** A cell of the next round advanced as intended: the placeholder "Winner <code>" of a
      current fixture became that fixture's winner and any other cell stayed as it was. */
  ghost predicate AdvancedAsIntended(before: string, after: string, current: seq<Fixture>)
  {
    && (forall i :: 0 <= i < |current| && before == WinnerLabel(current[i].score) ==> after == current[i].winner)
    && ((forall i :: 0 <= i < |current| ==> before != WinnerLabel(current[i].score)) ==> after == before)
  }

  /** update_table: in the home, away and score cells of a next-round fixture every placeholder
      of a current fixture becomes that fixture's winner and every other cell stays, and the
      winner is unknown. */
  lemma AdvanceResolves(current: seq<Fixture>, f: Fixture)
    requires WellLabelled(current)
    ensures AdvancedAsIntended(f.home, AdvancedFixture(f, current).home, current)
    ensures AdvancedAsIntended(f.away, AdvancedFixture(f, current).away, current)
    ensures AdvancedAsIntended(f.score, AdvancedFixture(f, current).score, current)
    ensures AdvancedFixture(f, current).winner == "?"
  {
    AdvancedCell(f.home, current);
    AdvancedCell(f.away, current);
    AdvancedCell(f.score, current);
  }

  // ---------------------------------------------------------------------------------------------
  // Filling the round of 16 from the group results.

  /** What a finished group hands to the knockout stage: its name, winner and runner-up. */
  datatype GroupResult = GroupResult(name: string, winner: string, runnerUp: string)

  /** The substitution made for one group. */
  function GroupMap(r: GroupResult): map<string, string>
  {
    map[WinnerLabel(r.name) := r.winner, RunnerUpLabel(r.name) := r.runnerUp]
  }

  /** The substitution of the four third-place placeholders by the four best thirds in order. */
  function ThirdMap(top: seq<string>): map<string, string>
    requires |top| >= 4
  {
    map[THIRD_LABELS[0] := top[0], THIRD_LABELS[1] := top[1], THIRD_LABELS[2] := top[2], THIRD_LABELS[3] := top[3]]
  }

  /** A cell after the substitutions of the groups in `results`, one group after another, each
      group's own substitution followed by the third-place substitution. */
  function Filled(cell: string, results: seq<GroupResult>, top: seq<string>): string
    requires |top| >= 4
  {
    if results == [] then cell else GroupStep(Filled(cell, results[..|results| - 1], top), results[|results| - 1], top)
  }

  /** The two substitutions made for one group. */
  function GroupStep(cell: string, r: GroupResult, top: seq<string>): string
    requires |top| >= 4
  {
    Replace(Replace(cell, GroupMap(r)), ThirdMap(top))
  }

  /** A round-of-16 fixture after the groups in `results`; its winner is set to unknown once
      any group has been handled. */
  function FilledFixture(f: Fixture, results: seq<GroupResult>, top: seq<string>): Fixture
    requires |results| == 0 || |top| >= 4
  {
    if results == [] then f
    else Fixture(Filled(f.home, results, top), Filled(f.away, results, top), Filled(f.score, results, top), "?")
  }

  /** The round of 16 filled in: for every group in turn its winner and runner-up placeholders,
      then the third-place placeholders, and the winners reset to unknown. */
  method FillRoundOf16(round: array<Fixture>, results: seq<GroupResult>, top: seq<string>)
    requires |results| == 0 || |top| >= 4
    modifies round
    ensures forall j :: 0 <= j < round.Length ==> round[j] == FilledFixture(old(round[j]), results, top)
  {
    for g := 0 to |results|
      invariant forall j :: 0 <= j < round.Length ==> round[j] == FilledFixture(old(round[j]), results[..g], top)
    {
      var groupMap := GroupMap(results[g]);
      forall j | 0 <= j < round.Length {
        round[j] := Substituted(round[j], groupMap);
      }
      var thirdMap := ThirdMap(top);
      forall j | 0 <= j < round.Length {
        round[j] := Substituted(round[j], thirdMap);
      }
      forall j | 0 <= j < round.Length {
        round[j] := round[j].(winner := "?");
      }
      forall j | 0 <= j < round.Length
        ensures round[j] == FilledFixture(old(round[j]), results[..g + 1], top)
      {
        FilledFixtureStep(old(round[j]), results, g, top);
      }
    }
    assert results[..|results|] == results;
  }

  /** Handling one more group substitutes its placeholders, then the third-place ones, and
      resets the winner. */
  lemma FilledFixtureStep(f: Fixture, results: seq<GroupResult>, g: nat, top: seq<string>)
    requires g < |results| && |top| >= 4
    ensures FilledFixture(f, results[..g + 1], top)
      == Substituted(Substituted(FilledFixture(f, results[..g], top), GroupMap(results[g])), ThirdMap(top)).(winner := "?")
  {
    assert results[..g + 1][..g] == results[..g] && results[..g + 1][g] == results[g];
  }

  /** Every placeholder of the round of 16, of any of the three kinds. */
  ghost predicate IsPlaceholder(cell: string, results: seq<GroupResult>)
  {
    || cell in THIRD_LABELS
    || exists g :: 0 <= g < |results| && (cell == WinnerLabel(results[g].name) || cell == RunnerUpLabel(results[g].name))
  }

  /** The group names are pairwise distinct and no team handed over is itself a placeholder. */
  ghost predicate WellNamed(results: seq<GroupResult>, top: seq<string>)
  {
    && (forall g, h :: 0 <= g < h < |results| ==> results[g].name != results[h].name)
    && (forall g :: 0 <= g < |results| ==>
          !IsPlaceholder(results[g].winner, results) && !IsPlaceholder(results[g].runnerUp, results))
    && (forall k :: 0 <= k < |top| ==> !IsPlaceholder(top[k], results))
  }

  lemma RunnerUpInjective(a: string, b: string)
    ensures RunnerUpLabel(a) == RunnerUpLabel(b) ==> a == b
  {
    if RunnerUpLabel(a) == RunnerUpLabel(b) {
      assert a == RunnerUpLabel(a)[10..];
      assert b == RunnerUpLabel(b)[10..];
    }
  }

  /** The three kinds of placeholder never coincide: they differ in their first character. */
  lemma LabelsDiffer(a: string, b: string)
    ensures WinnerLabel(a) != RunnerUpLabel(b)
    ensures WinnerLabel(a) !in THIRD_LABELS && RunnerUpLabel(b) !in THIRD_LABELS
  {
    assert WinnerLabel(a)[0] == 'W' && RunnerUpLabel(b)[0] == 'R';
    assert forall k :: 0 <= k < |THIRD_LABELS| ==> THIRD_LABELS[k][0] == '3';
  }

  /** What one group's substitutions do to a cell. */
  lemma GroupStepEffect(cell: string, r: GroupResult, top: seq<string>)
    requires |top| >= 4
    ensures cell == WinnerLabel(r.name) && r.winner !in THIRD_LABELS ==> GroupStep(cell, r, top) == r.winner
    ensures cell == RunnerUpLabel(r.name) && r.runnerUp !in THIRD_LABELS ==> GroupStep(cell, r, top) == r.runnerUp
    ensures forall k :: 0 <= k < 4 && cell == THIRD_LABELS[k] ==> GroupStep(cell, r, top) == top[k]
    ensures cell != WinnerLabel(r.name) && cell != RunnerUpLabel(r.name) && cell !in THIRD_LABELS ==>
      GroupStep(cell, r, top) == cell
  {
    LabelsDiffer(r.name, r.name);
  }

  lemma PlaceholderPrefix(x: string, results: seq<GroupResult>, n: nat)
    requires n <= |results|
    ensures IsPlaceholder(x, results[..n]) ==> IsPlaceholder(x, results)
  {
    if IsPlaceholder(x, results[..n]) && x !in THIRD_LABELS {
      var g :| 0 <= g < n && (x == WinnerLabel(results[..n][g].name) || x == RunnerUpLabel(results[..n][g].name));
      assert results[..n][g] == results[g];
    }
  }

  lemma WellNamedPrefix(results: seq<GroupResult>, top: seq<string>, n: nat)
    requires n <= |results| && WellNamed(results, top)
    ensures WellNamed(results[..n], top)
  {
    var init := results[..n];
    forall x | !IsPlaceholder(x, results) ensures !IsPlaceholder(x, init) {
      PlaceholderPrefix(x, results, n);
    }
    assert forall g :: 0 <= g < n ==> init[g] == results[g];
  }

  /** A cell that is no placeholder comes through the substitutions unchanged. */
  lemma {:induction false} FilledOther(cell: string, results: seq<GroupResult>, top: seq<string>)
    requires |top| >= 4 && !IsPlaceholder(cell, results)
    ensures Filled(cell, results, top) == cell
  {
    if results != [] {
      var n := |results| - 1;
      PlaceholderPrefix(cell, results, n);
      FilledOther(cell, results[..n], top);
      GroupStepEffect(cell, results[n], top);
    }
  }

  /** A cell that is no placeholder is not one of the last group's or a third-place placeholder. */
  lemma NotLastLabel(x: string, results: seq<GroupResult>)
    requires results != [] && !IsPlaceholder(x, results)
    ensures var last := results[|results| - 1];
      x != WinnerLabel(last.name) && x != RunnerUpLabel(last.name) && x !in THIRD_LABELS
  {
  }

  /** With distinct group names, the last group's placeholders are not placeholders of the
      groups before it. */
  lemma LastLabelsFresh(results: seq<GroupResult>)
    requires results != []
    requires forall g, h :: 0 <= g < h < |results| ==> results[g].name != results[h].name
    ensures var n := |results| - 1;
      && !IsPlaceholder(WinnerLabel(results[n].name), results[..n])
      && !IsPlaceholder(RunnerUpLabel(results[n].name), results[..n])
  {
    var n := |results| - 1;
    var last := results[n];
    var init := results[..n];
    LabelsDiffer(last.name, last.name);
    forall h | 0 <= h < n
      ensures WinnerLabel(last.name) != WinnerLabel(init[h].name) && WinnerLabel(last.name) != RunnerUpLabel(init[h].name)
      ensures RunnerUpLabel(last.name) != WinnerLabel(init[h].name) && RunnerUpLabel(last.name) != RunnerUpLabel(init[h].name)
    {
      assert init[h] == results[h];
      LabelInjective(init[h].name, last.name);
      RunnerUpInjective(init[h].name, last.name);
      LabelsDiffer(last.name, init[h].name);
      LabelsDiffer(init[h].name, last.name);
    }
  }

  /** A group's winner placeholder becomes the group's winner. */
  lemma {:induction false} FilledWinner(cell: string, results: seq<GroupResult>, top: seq<string>, g: nat)
    requires |top| >= 4 && WellNamed(results, top)
    requires g < |results| && cell == WinnerLabel(results[g].name)
    ensures Filled(cell, results, top) == results[g].winner
  {
    var n := |results| - 1;
    if g < n {
      var init := results[..n];
      var winner := results[g].winner;
      assert !IsPlaceholder(winner, results);
      NotLastLabel(winner, results);
      WellNamedPrefix(results, top, n);
      assert init[g] == results[g];
      FilledWinner(cell, init, top, g);
      GroupStepEffect(winner, results[n], top);
    } else {
      FilledLastWinner(cell, results, top);
    }
  }

  lemma FilledLastWinner(cell: string, results: seq<GroupResult>, top: seq<string>)
    requires |top| >= 4 && WellNamed(results, top) && results != []
    requires cell == WinnerLabel(results[|results| - 1].name)
    ensures Filled(cell, results, top) == results[|results| - 1].winner
  {
    var n := |results| - 1;
    assert !IsPlaceholder(results[n].winner, results);
    NotLastLabel(results[n].winner, results);
    LastLabelsFresh(results);
    FilledOther(cell, results[..n], top);
    GroupStepEffect(cell, results[n], top);
  }

  /** A group's runner-up placeholder becomes the group's runner-up. */
  lemma {:induction false} FilledRunnerUp(cell: string, results: seq<GroupResult>, top: seq<string>, g: nat)
    requires |top| >= 4 && WellNamed(results, top)
    requires g < |results| && cell == RunnerUpLabel(results[g].name)
    ensures Filled(cell, results, top) == results[g].runnerUp
  {
    var n := |results| - 1;
    if g < n {
      var init := results[..n];
      var runnerUp := results[g].runnerUp;
      assert !IsPlaceholder(runnerUp, results);
      NotLastLabel(runnerUp, results);
      WellNamedPrefix(results, top, n);
      assert init[g] == results[g];
      FilledRunnerUp(cell, init, top, g);
      GroupStepEffect(runnerUp, results[n], top);
    } else {
      FilledLastRunnerUp(cell, results, top);
    }
  }

  lemma FilledLastRunnerUp(cell: string, results: seq<GroupResult>, top: seq<string>)
    requires |top| >= 4 && WellNamed(results, top) && results != []
    requires cell == RunnerUpLabel(results[|results| - 1].name)
    ensures Filled(cell, results, top) == results[|results| - 1].runnerUp
  {
    var n := |results| - 1;
    assert !IsPlaceholder(results[n].runnerUp, results);
    NotLastLabel(results[n].runnerUp, results);
    LastLabelsFresh(results);
    FilledOther(cell, results[..n], top);
    GroupStepEffect(cell, results[n], top);
  }

  /** Once any group has been handled, the k-th third-place placeholder is the k-th best third. */
  lemma {:induction false} FilledThird(cell: string, results: seq<GroupResult>, top: seq<string>, k: nat)
    requires |top| >= 4 && WellNamed(results, top) && results != []
    requires k < 4 && cell == THIRD_LABELS[k]
    ensures Filled(cell, results, top) == top[k]
  {
    var n := |results| - 1;
    var init := results[..n];
    if n == 0 {
      GroupStepEffect(cell, results[n], top);
    } else {
      WellNamedPrefix(results, top, n);
      FilledThird(cell, init, top, k);
      assert !IsPlaceholder(top[k], results);
      GroupStepEffect(top[k], results[n], top);
    }
  }

  /** A cell of the round of 16 resolved as intended: a group's winner or runner-up placeholder
      became that team, the k-th third-place placeholder the k-th best third, and any other cell
      stayed as it was. */
  ghost predicate FilledAsIntended(before: string, after: string, results: seq<GroupResult>, top: seq<string>)
    requires |top| >= 4
  {
    && (forall g :: 0 <= g < |results| && before == WinnerLabel(results[g].name) ==> after == results[g].winner)
    && (forall g :: 0 <= g < |results| && before == RunnerUpLabel(results[g].name) ==> after == results[g].runnerUp)
    && (forall k :: 0 <= k < 4 && before == THIRD_LABELS[k] ==> after == top[k])
    && (!IsPlaceholder(before, results) ==> after == before)
  }

  lemma FilledCellAsIntended(cell: string, results: seq<GroupResult>, top: seq<string>)
    requires |top| >= 4 && WellNamed(results, top) && results != []
    ensures FilledAsIntended(cell, Filled(cell, results, top), results, top)
  {
    forall g | 0 <= g < |results| && cell == WinnerLabel(results[g].name) {
      FilledWinner(cell, results, top, g);
    }
    forall g | 0 <= g < |results| && cell == RunnerUpLabel(results[g].name) {
      FilledRunnerUp(cell, results, top, g);
    }
    forall k | 0 <= k < 4 && cell == THIRD_LABELS[k] {
      FilledThird(cell, results, top, k);
    }
    if !IsPlaceholder(cell, results) {
      FilledOther(cell, results, top);
    }
  }

  /** The round-of-16 fill: in the home, away and score cells every placeholder becomes the team
      it stands for and every other cell stays, and the winner is unknown, once any group has
      been handled. */
  lemma FillResolves(f: Fixture, results: seq<GroupResult>, top: seq<string>)
    requires |top| >= 4 && WellNamed(results, top) && results != []
    ensures FilledAsIntended(f.home, FilledFixture(f, results, top).home, results, top)
    ensures FilledAsIntended(f.away, FilledFixture(f, results, top).away, results, top)
    ensures FilledAsIntended(f.score, FilledFixture(f, results, top).score, results, top)
    ensures FilledFixture(f, results, top).winner == "?"
  {
    FilledCellAsIntended(f.home, results, top);
    FilledCellAsIntended(f.away, results, top);
    FilledCellAsIntended(f.score, results, top);
  }
}
