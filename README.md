# Euro 2024 simulation model

This project models the simulation pipeline of a Euro 2024 predictor, which runs these stages one after another:

1. Build a strength table from historical matches.
2. Predict every match from two independent Poisson scorelines.
3. Play the six groups: credit each fixture's truncated expected points and goals to the two teams, set goal difference, and rank each table by points, then goal difference, then goals for.
4. Pick the four best third-placed teams.
5. Resolve the knockout bracket: fill the round of 16 from the group results, decide every fixture, write the winners into the next round's `Winner <match>` placeholders, and repeat up to the final.

Modules, one file each:

- `Strength` (`strength.dfy`): the strength table, with a reference definition stated on matches.
- `Predictor` (`predictor.dfy`):
  - the predictor and its nested score-grid loop, proved against grid sums;
  - the partition of the 121 scorelines into outcomes;
  - the home/away symmetry.
- `Ranking` (`ranking.dfy`): group table rows, the `(Pts, GD, GF)` order, and the sort.
- `Fixtures` (`fixtures.dfy`): fixture rows and the split of the fixture list into stages by position.
- `GroupStage` (`group_stage.dfy`):
  - stripping the host marker from names;
  - `int()` truncation;
  - crediting one fixture to the rows;
  - the fixture loop, proved against a fold;
  - goal difference, ranking, and goal balance.
- `ThirdPlace` (`third_place.dfy`): the third-placed rows, their ranking, and the first four names.
- `Knockout` (`knockout.dfy`):
  - whole-cell substitution;
  - the winner rule;
  - round-of-16 fill, winner decision and round advance, each as a method over a fixed-size array updated in place;
  - lemmas that every placeholder resolves to the team it names.
- `Tournament` (`tournament.dfy`): the whole run wired together, each method tied to a specification function.

Modelling choices:

- **Numbers.**
  - Floats are modelled as `real`, so the mean ratings and the grid sums are exact.
  - The Poisson mass is a parameter `pmf: (nat, real) -> real`.
  - The group and knockout stages take the predictor as a function value. `Tournament.Predictions` builds it from the strength table and `pmf`.
- **Replacement.** A pandas `replace` with a dictionary is a single lookup per cell: every cell is matched against the original keys at once. Successive `replace` calls are modelled one after another, as a fold.
- **Columns.**
  - The model replaces cells in the home, away and score columns only, and never in the `winner` column.
  - This loses nothing, for two reasons. Each later round is a fresh slice (model_prediction.py:60-62) of the fixture file, whose columns are home, score, away and year (web_scraping.py:44-50), so it has no `winner` column when `update_table` replaces in it. In the round-of-16 loop (model_prediction.py:99-114), the `winner` column exists only from the second group on, and then it holds only `"?"`, which is none of the keys.
  - `update_table` sets the winners to `"?"` once, after all its replacements (model_prediction.py:142). The round-of-16 loop sets them after each group's two replacements (line 114).
  - The other columns of the fixture files (such as the year) are not modelled.
- **Third-place labels.** The code fills the four third-place labels with the four ranked thirds in a fixed order (first, second, third, fourth). The model does the same; no lookup by the groups the thirds came from is made.

## Model

| member | source | states |
|---|---|---|
| Strength.TeamStrength | model_prediction.py:11-20 | A team has an entry exactly when it played at least one historical match, home or away. Its rating is its goals scored and its goals conceded, summed over its home and away appearances, each divided by its number of appearances. The away view swaps home and away goals. |
| Strength.RatedIffAppeared | model_prediction.py:20 | A team is in the strength table if and only if it is the home or away team of some historical match. |
| Strength.PooledTotals | model_prediction.py:11-20 | In the pooled home and away views, every team's number of views and its goal totals equal the per-match counts and goal totals. A team is in the pool exactly when it played. |
| Predictor.OutcomeOf | model_prediction.py:41-46 | A scoreline is a draw iff the goals are equal, a home win iff the home side scored more, and an away win iff the away side scored more. So it is exactly one of the three. |
| Predictor.PredictPointsAndGoals | model_prediction.py:31-54 | If either team is unrated, the result is (0, 0, 0, 0). Otherwise each side's expected goals is its scored mean times the opponent's conceded mean. Each side's points is 3·P(win) + P(draw). The goal expectations are taken over the 11 × 11 grid. The result agrees with `Predictor.Predict`. |
| Predictor.WalkScoreGrid | model_prediction.py:36-49 | The two nested loops leave in their five accumulators the grid sums of P(home win), P(draw), P(away win), and the expected home and away goals. |
| Predictor.ScorelineStep | model_prediction.py:40-48 | One pass of the inner loop body adds the scoreline's probability to exactly the accumulator of its outcome, and its weighted goals to the two goal accumulators. |
| Predictor.OutcomesPartitionGrid | model_prediction.py:38-46 | For every goal model, P(home win) + P(draw) + P(away win) over the grid is the total probability mass of the grid. |
| Predictor.ScorelineCounts | model_prediction.py:38-46 | The grid has 121 scorelines, each counted once: 11 draws, 55 home wins and 55 away wins. |
| Predictor.PredictSwapsSides | model_prediction.py:31-54 | Swapping home and away swaps the two points values and the two goal expectations of the prediction. |
| Predictor.MirrorGrid | model_prediction.py:38-48 | Summing a measure over the grid equals summing its mirrored measure over the transposed grid, with the two expected-goal means exchanged. |
| Ranking.SortByKey | model_prediction.py:82 | The sorted table is ordered non-increasingly by (Pts, GD, GF), lexicographically. It is a permutation of its input. |
| Ranking.SortKeepsTotals | model_prediction.py:82 | Sorting leaves every column total unchanged. |
| Ranking.SortKeepsCounts | model_prediction.py:82 | Sorting leaves every team with the same number of rows. |
| Ranking.TopOfRanked | model_prediction.py:101-102 | In a ranked table, row 0 ranks at least as high as every row, and row 1 at least as high as every row after it: the group winner and the runner-up. |
| Ranking.Names | model_prediction.py:97 | The team column of a table, row by row. |
| GroupStage.HostSuffixRemoved | model_prediction.py:27 | A name carrying the host suffix " (H)" becomes the bare name ("Germany (H)" becomes "Germany"). |
| GroupStage.UnmarkedNameUnchanged | model_prediction.py:27 | A name without "(H)" is left unchanged. |
| GroupStage.Trunc | model_prediction.py:74-79 | `int()` of a float rounds toward zero. For a non-negative value it is the largest integer not above it. For a negative value it is the smallest integer not below it. |
| GroupStage.InitTable | model_prediction.py:24-27 | The table before the group is played: the same rows in order, names cleaned, points kept, goals for and against zero. |
| GroupStage.Credit | model_prediction.py:74-79 | The six updates of one fixture on one row change the team's Pts, GF and GA by the truncated values the source credits to it as home team and as away team. They change nothing else. |
| GroupStage.ApplyFixture | model_prediction.py:74-79 | Simulating a fixture keeps the number of rows and every row's team and goal difference. |
| GroupStage.FixtureEffect | model_prediction.py:74-79 | After one fixture, rows of other teams are unchanged. The home row gains int(points_home) Pts, int(goals_home) GF and int(goals_away) GA. The away row gains int(points_away) Pts, int(goals_away) GF and int(goals_home) GA. |
| GroupStage.FixtureTotals | model_prediction.py:74-79 | One fixture adds to the Pts, GF and GA totals the truncated values times the number of rows of each team. |
| GroupStage.GroupFixtures | model_prediction.py:69-70 | A fixture is a group fixture if and only if it is in the stage list and its home team has a row in the group table. Each fixture whose home team is in the table occurs as many times as in the stage list, and any other fixture does not occur. |
| GroupStage.PlayFixtures | model_prediction.py:71-79 | The fixture loop leaves the table the fold of all the group's fixtures in list order. |
| GroupStage.AccumulateKeepsTeams | model_prediction.py:71-79 | Playing fixtures keeps the rows and their teams. |
| GroupStage.GoalBalance | model_prediction.py:74-79 | When each fixture's two teams have equally many rows, the fixtures credit as much GF as GA. The difference of the two totals is therefore unchanged. |
| GroupStage.WithGoalDifference | model_prediction.py:81 | Every row's GD becomes GF − GA, and nothing else changes. |
| GroupStage.GoalDifferenceTotal | model_prediction.py:81 | Once GD = GF − GA is set, the GD total is the GF total minus the GA total. |
| GroupStage.FinishedTable | model_prediction.py:68-83 | The finished group table is ranked by (Pts, GD, GF) and has a row per row of the table. Every row's GD is GF − GA, and its team is one of the group's teams. Every team has as many rows as in the starting table. Over balanced fixtures the GD total equals the GF total minus the GA total of the starting table. |
| GroupStage.GoalDifferencesCancel | model_prediction.py:74-81 | Starting from the initial table, balanced fixtures leave goal differences that add up to zero. |
| GroupStage.SimulateGroup | model_prediction.py:68-83 | One group plays its fixtures, sets GD and is ranked, giving its finished table. |
| ThirdPlace.Thirds | model_prediction.py:89-91 | The row at position 2 of every group table, in group order. |
| ThirdPlace.BestThirdRows | model_prediction.py:93-97 | The selection has min(4, number of groups) rows, is ranked, and takes only third-placed rows, each at most as often as it occurs. No third-placed row left out ranks strictly above a selected one. |
| ThirdPlace.BestThirds | model_prediction.py:97 | There are min(4, number of groups) names, and each is the team of some group's third-placed row. |
| Fixtures.SplitStages | model_prediction.py:58-62 | The five slices concatenate to the fixture list. A list of at least 50 rows gives 36, 8, 4 and 2 rows, then the rest for the final, with Python's clamping past the end. |
| Knockout.ReplaceNotChained | model_prediction.py:105 | A substitution is made once per cell, not chained: with `a` mapped to `b` and `b` to `c`, the cell `a` becomes `b`, and only a second substitution would turn it into `c`. |
| Knockout.SubstitutedSettles | model_prediction.py:105-111 | When no value of a substitution is also one of its keys, making it a second time changes no cell of the fixture. |
| Knockout.WinnerOf | model_prediction.py:119-126 | The winner is one of the two teams. When the home team's predicted points are strictly higher, the winner is the home team. Otherwise, equal points included, the winner is the away team. |
| Knockout.GetWinners | model_prediction.py:118-127 | Every fixture of the round gets the winner the rule gives it, and nothing else changes. |
| Knockout.UpdateTable | model_prediction.py:137-143 | Every next-round fixture has each current fixture's `Winner <code>` substitution made in its home, away and score cells, one after another. Its winner becomes "?". |
| Knockout.AdvancedCell | model_prediction.py:138-141 | With distinct codes, a cell equal to `Winner <code>` of a current fixture becomes that fixture's winner. Any other cell is unchanged. |
| Knockout.AdvanceResolves | model_prediction.py:137-143 | After `update_table`, every next-round home, away and score cell naming a current fixture's winner holds that winner. Every other cell is unchanged, and the winner is "?". |
| Knockout.FillRoundOf16 | model_prediction.py:100-114 | For every group in turn, the round of 16 gets the group's winner and runner-up substitution, then the third-place substitution, then its winners set to "?". |
| Knockout.FilledWinner | model_prediction.py:101-105 | The `Winner <group>` placeholder becomes that group's winner. |
| Knockout.FilledRunnerUp | model_prediction.py:102-105 | The `Runner-up <group>` placeholder becomes that group's runner-up. |
| Knockout.FilledThird | model_prediction.py:108-111 | Once a group has been handled, the k-th third-place label becomes the k-th best third. |
| Knockout.FilledOther | model_prediction.py:105-111 | A cell that is no placeholder is left unchanged. |
| Knockout.FillResolves | model_prediction.py:100-114 | In every round-of-16 home, away and score cell, each placeholder becomes the team it names and every other cell stays. The winner is "?". |
| Tournament.GroupTable | model_prediction.py:68-84 | A group's finished table is ranked, has as many rows as the group, and holds each team of the cleaned group table as many times as that table does. |
| Tournament.GroupTables | model_prediction.py:68-84 | There is one finished table per group, in group order. Each is ranked, has as many rows as its group, and holds each team of its cleaned group table as many times as that table does. |
| Tournament.GroupResults | model_prediction.py:100-102 | Each group's name with rows 0 and 1 of its finished table as winner and runner-up. |
| Tournament.Decided | model_prediction.py:118-127 | A decided round has the same fixtures with their winners set by the winner rule, so every winner is one of its fixture's two teams. |
| Tournament.AdvancedRound | model_prediction.py:137-143 | Each next-round fixture has the current round's winners advanced into it. |
| Tournament.FilledRound | model_prediction.py:100-114 | Each round-of-16 fixture is filled from the group results and the best thirds. |
| Tournament.Knockouts | model_prediction.py:130-162 | Every knockout round keeps its number of fixtures, and every winner is one of its fixture's two teams. |
| Tournament.PlayGroup | model_prediction.py:68-84 | Playing one group gives its finished table. |
| Tournament.PlayGroupStage | model_prediction.py:68-84 | The group loop gives the finished tables of all groups in order. |
| Tournament.PlayRoundOf16 | model_prediction.py:100-131 | The round of 16, filled and decided in place, is the decided filled round. |
| Tournament.PlayRound | model_prediction.py:146-162 | A later round, advanced from the previous round and decided in place, is the decided advanced round. |
| Tournament.PlayKnockouts | model_prediction.py:130-162 | The four rounds the knockout stage plays are the rounds of the bracket specification. |
| Tournament.SimulateTournament | model_prediction.py:11-162 | The whole run: the strength table from the history, the group tables from the group-stage slice, and the knockout bracket from the tables and the knockout slices, all with one predictor. |

## Left out

- The Poisson mass (`scipy.stats.poisson.pmf`) is the parameter `pmf`. Floating-point rounding of the sums is not modelled: reals are exact, because the library's numerics cannot be seen.
- Reading the historical, fixture and group files and printing the rounds and the champion are I/O (model_prediction.py:6-8, 132-167).
- `main.py` and `web_scraping.py` fetch and parse web pages and are not part of this model.
- `round(0)` of the finished tables (model_prediction.py:84) is the identity on the integer columns the model keeps. The column selection (line 83) is the `Row` datatype itself.
- Ranking.SortByKey: the order among rows with equal (Pts, GD, GF) is not claimed, because the code does not choose a stable sort.
- The sort in the model is an insertion sort. It stands for pandas' `sort_values`, whose algorithm is not modelled.
- GroupStage.GoalBalance: the GF = GA balance needs each fixture's two teams to have equally many rows in the group table. The code selects fixtures by the home team only, so an away team outside the group would break the balance; the hypothesis `Balanced` states this.
- GroupStage.GoalDifferencesCancel: needs the same `Balanced` hypothesis as GroupStage.GoalBalance.
- Knockout.AdvanceResolves carries the hypothesis `WellLabelled`: the current fixtures have distinct match codes and no winner is itself a `Winner <code>` placeholder. Without it a cell could be substituted twice.
- Knockout.FillResolves carries the hypothesis `WellNamed`: group names are distinct and no team name is one of the placeholders. It speaks of at least one group.
- Knockout.UpdateTable and Knockout.FillRoundOf16 work on a fresh array built from the round's rows. `get_winner` and `update_table` return the very frame they mutate, and the model does not capture that aliasing.
- The pairing of the four third-place labels with the ranked thirds is taken as the code writes it (model_prediction.py:108-111), not derived.
- Tournament.Knockouts, Tournament.PlayKnockouts and Tournament.SimulateTournament require at least four groups, and every group table needs at least three rows. The source crashes otherwise, and those crashes are not modelled as results:
  - a group table with fewer than three rows raises `IndexError` at `iloc[2]` (model_prediction.py:90);
  - one to three groups raise `IndexError` at `top_four_third_place_teams[3]` (model_prediction.py:108-111);
  - no groups at all raise `KeyError` on `'Pts'` when the empty third-place table is sorted (model_prediction.py:93-94).
