/** The match outcome predictor: expected points and expected goals of a match between two rated
    teams, from two independent Poisson scorelines truncated to at most ten goals a side.

    The Poisson probability mass is not modelled; it is the parameter `pmf`, where `pmf(k, lambda)`
    stands for the probability of k goals when lambda goals are expected. */
module Predictor {
  import opened Strength

  /** Highest number of goals a side is considered to score. */
  const MAX_GOALS: nat := 10

  /** Number of goal counts per side, 0 to MAX_GOALS inclusive. */
  const SIDE: nat := MAX_GOALS + 1

  /** The probability mass function of the goal model. */
  type Pmf = (nat, real) -> real

  /** Expected points of each side, then expected goals of each side. */
  datatype Prediction = Prediction(pointsHome: real, pointsAway: real, goalsHome: real, goalsAway: real)

  /** The fallback when a team has no rating. */
  const NO_PREDICTION := Prediction(0.0, 0.0, 0.0, 0.0)

  datatype Outcome = HomeWin | Draw | AwayWin

  /** What a scoreline counts as; the source tests equality first, then a home, then an away lead. */
  function OutcomeOf(goalsHome: nat, goalsAway: nat): (o: Outcome)
    ensures o == Draw <==> goalsHome == goalsAway
    ensures o == HomeWin <==> goalsHome > goalsAway
    ensures o == AwayWin <==> goalsAway > goalsHome
  {
    if goalsHome == goalsAway then Draw
    else if goalsHome > goalsAway then HomeWin
    else AwayWin
  }

  /** The quantities accumulated over the score grid: the chance of one outcome, the goal
      expectations of either side, and the total probability mass of the grid. */
  datatype Measure = Chance(outcome: Outcome) | HomeGoals | AwayGoals | Mass

  /** Contribution of the scoreline (gh, ga) to a measure. */
  function Cell(pmf: Pmf, lh: real, la: real, m: Measure, gh: nat, ga: nat): real
  {
    var p := pmf(gh, lh) * pmf(ga, la);
    match m
    case Chance(o) => if OutcomeOf(gh, ga) == o then p else 0.0
    case HomeGoals => p * gh as real
    case AwayGoals => p * ga as real
    case Mass => p
  }

  /** Sum of the cells (gh, 0) .. (gh, cols - 1). */
  function RowSum(pmf: Pmf, lh: real, la: real, m: Measure, gh: nat, cols: nat): real
  {
    if cols == 0 then 0.0 else RowSum(pmf, lh, la, m, gh, cols - 1) + Cell(pmf, lh, la, m, gh, cols - 1)
  }

  /** Sum of the cells of the rows 0 .. rows - 1, each of cols cells. */
  function GridSum(pmf: Pmf, lh: real, la: real, m: Measure, rows: nat, cols: nat): real
  {
    if rows == 0 then 0.0 else GridSum(pmf, lh, la, m, rows - 1, cols) + RowSum(pmf, lh, la, m, rows - 1, cols)
  }

  /** Sum of the cells (0, ga) .. (rows - 1, ga): one column. */
  function ColSum(pmf: Pmf, lh: real, la: real, m: Measure, ga: nat, rows: nat): real
  {
    if rows == 0 then 0.0 else ColSum(pmf, lh, la, m, ga, rows - 1) + Cell(pmf, lh, la, m, rows - 1, ga)
  }

  /** The same grid summed column by column. */
  function ColumnwiseSum(pmf: Pmf, lh: real, la: real, m: Measure, rows: nat, cols: nat): real
  {
    if cols == 0 then 0.0 else ColumnwiseSum(pmf, lh, la, m, rows, cols - 1) + ColSum(pmf, lh, la, m, cols - 1, rows)
  }

  /** A measure summed over the whole 11 x 11 score grid. */
  function Expectation(pmf: Pmf, lh: real, la: real, m: Measure): real
  {
    GridSum(pmf, lh, la, m, SIDE, SIDE)
  }

  /** The prediction: zero when either team is unrated, otherwise 3 points per win and 1 per draw
      weighted by their chances, and the goal expectations. */
  function Predict(s: map<string, Rating>, pmf: Pmf, home: string, away: string): Prediction
  {
    if home in s && away in s then
      var lh := s[home].scored * s[away].against;
      var la := s[away].scored * s[home].against;
      Prediction(3.0 * Expectation(pmf, lh, la, Chance(HomeWin)) + Expectation(pmf, lh, la, Chance(Draw)),
                 3.0 * Expectation(pmf, lh, la, Chance(AwayWin)) + Expectation(pmf, lh, la, Chance(Draw)),
                 Expectation(pmf, lh, la, HomeGoals),
                 Expectation(pmf, lh, la, AwayGoals))
    else NO_PREDICTION
  }

  /** The predictor as the source runs it: zero for an unrated team, otherwise the expected goals
      of each side from the two ratings, the score grid walked, and 3 points per win and 1 per
      draw weighted by their chances. */
  method PredictPointsAndGoals(s: map<string, Rating>, pmf: Pmf, home: string, away: string)
    returns (p: Prediction)
    ensures home !in s || away !in s ==> p == NO_PREDICTION
    ensures home in s && away in s ==>
      var lh := s[home].scored * s[away].against;
      var la := s[away].scored * s[home].against;
      && p.pointsHome == 3.0 * Expectation(pmf, lh, la, Chance(HomeWin)) + Expectation(pmf, lh, la, Chance(Draw))
      && p.pointsAway == 3.0 * Expectation(pmf, lh, la, Chance(AwayWin)) + Expectation(pmf, lh, la, Chance(Draw))
      && p.goalsHome == Expectation(pmf, lh, la, HomeGoals)
      && p.goalsAway == Expectation(pmf, lh, la, AwayGoals)
    ensures p == Predict(s, pmf, home, away)
  {
    if home in s && away in s {
      var lambdaHome := s[home].scored * s[away].against;
      var lambdaAway := s[away].scored * s[home].against;
      var probHome, probDraw, probAway, goalsHomeTotal, goalsAwayTotal := WalkScoreGrid(pmf, lambdaHome, lambdaAway);
      var pointsHome := 3.0 * probHome + probDraw;
      var pointsAway := 3.0 * probAway + probDraw;
      p := Prediction(pointsHome, pointsAway, goalsHomeTotal, goalsAwayTotal);
    } else {
      p := NO_PREDICTION;
    }
  }

  /** The two nested loops of the predictor: every scoreline's probability goes to exactly one of
      the draw, home win and away win accumulators, and its probability-weighted goals to the goal
      accumulators. */
  method WalkScoreGrid(pmf: Pmf, lh: real, la: real)
    returns (probHome: real, probDraw: real, probAway: real, goalsHomeTotal: real, goalsAwayTotal: real)
    ensures probHome == Expectation(pmf, lh, la, Chance(HomeWin))
    ensures probDraw == Expectation(pmf, lh, la, Chance(Draw))
    ensures probAway == Expectation(pmf, lh, la, Chance(AwayWin))
    ensures goalsHomeTotal == Expectation(pmf, lh, la, HomeGoals)
    ensures goalsAwayTotal == Expectation(pmf, lh, la, AwayGoals)
  {
    var side := SIDE;
    probHome, probDraw, probAway := 0.0, 0.0, 0.0;
    goalsHomeTotal, goalsAwayTotal := 0.0, 0.0;
    for goalsHome := 0 to side
      invariant Walked(pmf, lh, la, goalsHome, 0, side,
                       Totals(probHome, probDraw, probAway, goalsHomeTotal, goalsAwayTotal))
    {
      for goalsAway := 0 to side
        invariant Walked(pmf, lh, la, goalsHome, goalsAway, side,
                         Totals(probHome, probDraw, probAway, goalsHomeTotal, goalsAwayTotal))
      {
        var prob := pmf(goalsHome, lh) * pmf(goalsAway, la);
        ghost var before := Totals(probHome, probDraw, probAway, goalsHomeTotal, goalsAwayTotal);
        if goalsHome == goalsAway {
          probDraw := probDraw + prob;
        } else if goalsHome > goalsAway {
          probHome := probHome + prob;
        } else if goalsAway > goalsHome {
          probAway := probAway + prob;
        }
        goalsHomeTotal := goalsHomeTotal + prob * goalsHome as real;
        goalsAwayTotal := goalsAwayTotal + prob * goalsAway as real;
        ScorelineStep(pmf, lh, la, goalsHome, goalsAway, side, prob, before,
                      Totals(probHome, probDraw, probAway, goalsHomeTotal, goalsAwayTotal));
      }
      RowComplete(pmf, lh, la, goalsHome, side, Totals(probHome, probDraw, probAway, goalsHomeTotal, goalsAwayTotal));
    }
    WalkDone(pmf, lh, la, side, Totals(probHome, probDraw, probAway, goalsHomeTotal, goalsAwayTotal));
  }

  /** The five accumulators of the grid walk. */
  datatype Totals = Totals(home: real, draw: real, away: real, goalsHome: real, goalsAway: real)

  /** One accumulator after the rows before gh and the first ga cells of row gh. */
  ghost predicate Partial(pmf: Pmf, lh: real, la: real, m: Measure, gh: nat, ga: nat, side: nat, acc: real)
  {
    acc == GridSum(pmf, lh, la, m, gh, side) + RowSum(pmf, lh, la, m, gh, ga)
  }

  /** The five accumulators after the rows before gh and the first ga cells of row gh. */
  ghost predicate Walked(pmf: Pmf, lh: real, la: real, gh: nat, ga: nat, side: nat, t: Totals)
  {
    && Partial(pmf, lh, la, Chance(HomeWin), gh, ga, side, t.home)
    && Partial(pmf, lh, la, Chance(Draw), gh, ga, side, t.draw)
    && Partial(pmf, lh, la, Chance(AwayWin), gh, ga, side, t.away)
    && Partial(pmf, lh, la, HomeGoals, gh, ga, side, t.goalsHome)
    && Partial(pmf, lh, la, AwayGoals, gh, ga, side, t.goalsAway)
  }

  /** Adding the cell (gh, ga) to one accumulator extends it by one cell. */
  lemma CellStep(pmf: Pmf, lh: real, la: real, m: Measure, gh: nat, ga: nat, side: nat, acc: real, next: real)
    requires Partial(pmf, lh, la, m, gh, ga, side, acc)
    requires next == acc + Cell(pmf, lh, la, m, gh, ga)
    ensures Partial(pmf, lh, la, m, gh, ga + 1, side, next)
  {
  }

  /** Adding scoreline (gh, ga) the way the loop body does extends the walk by one cell. */
  lemma ScorelineStep(pmf: Pmf, lh: real, la: real, gh: nat, ga: nat, side: nat, prob: real, before: Totals, after: Totals)
    requires Walked(pmf, lh, la, gh, ga, side, before)
    requires prob == pmf(gh, lh) * pmf(ga, la)
    requires after.draw == before.draw + (if gh == ga then prob else 0.0)
      && after.home == before.home + (if gh > ga then prob else 0.0)
      && after.away == before.away + (if ga > gh then prob else 0.0)
      && after.goalsHome == before.goalsHome + prob * gh as real
      && after.goalsAway == before.goalsAway + prob * ga as real
    ensures Walked(pmf, lh, la, gh, ga + 1, side, after)
  {
    CellStep(pmf, lh, la, Chance(HomeWin), gh, ga, side, before.home, after.home);
    CellStep(pmf, lh, la, Chance(Draw), gh, ga, side, before.draw, after.draw);
    CellStep(pmf, lh, la, Chance(AwayWin), gh, ga, side, before.away, after.away);
    CellStep(pmf, lh, la, HomeGoals, gh, ga, side, before.goalsHome, after.goalsHome);
    CellStep(pmf, lh, la, AwayGoals, gh, ga, side, before.goalsAway, after.goalsAway);
  }

  /** Finishing row gh is starting row gh + 1. */
  lemma RowComplete(pmf: Pmf, lh: real, la: real, gh: nat, side: nat, t: Totals)
    requires Walked(pmf, lh, la, gh, side, side, t)
    ensures Walked(pmf, lh, la, gh + 1, 0, side, t)
  {
  }

  /** A walk over all the rows of the full grid has computed the five expectations. */
  lemma WalkDone(pmf: Pmf, lh: real, la: real, side: nat, t: Totals)
    requires side == SIDE && Walked(pmf, lh, la, side, 0, side, t)
    ensures t.home == Expectation(pmf, lh, la, Chance(HomeWin))
    ensures t.draw == Expectation(pmf, lh, la, Chance(Draw))
    ensures t.away == Expectation(pmf, lh, la, Chance(AwayWin))
    ensures t.goalsHome == Expectation(pmf, lh, la, HomeGoals)
    ensures t.goalsAway == Expectation(pmf, lh, la, AwayGoals)
  {
  }

  // ---------------------------------------------------------------------------------------------
  // Every scoreline is counted into exactly one outcome.

  lemma {:induction false} RowPartition(pmf: Pmf, lh: real, la: real, gh: nat, cols: nat)
    ensures RowSum(pmf, lh, la, Chance(HomeWin), gh, cols) + RowSum(pmf, lh, la, Chance(Draw), gh, cols)
            + RowSum(pmf, lh, la, Chance(AwayWin), gh, cols) == RowSum(pmf, lh, la, Mass, gh, cols)
  {
    if cols > 0 {
      RowPartition(pmf, lh, la, gh, cols - 1);
    }
  }

  lemma {:induction false} GridPartition(pmf: Pmf, lh: real, la: real, rows: nat, cols: nat)
    ensures GridSum(pmf, lh, la, Chance(HomeWin), rows, cols) + GridSum(pmf, lh, la, Chance(Draw), rows, cols)
            + GridSum(pmf, lh, la, Chance(AwayWin), rows, cols) == GridSum(pmf, lh, la, Mass, rows, cols)
  {
    if rows > 0 {
      GridPartition(pmf, lh, la, rows - 1, cols);
      RowPartition(pmf, lh, la, rows - 1, cols);
    }
  }

  /** The chances of a home win, a draw and an away win add up to the whole mass of the grid:
      each of the 121 scorelines falls into exactly one of the three. */
  lemma OutcomesPartitionGrid(pmf: Pmf, lh: real, la: real)
    ensures Expectation(pmf, lh, la, Chance(HomeWin)) + Expectation(pmf, lh, la, Chance(Draw))
            + Expectation(pmf, lh, la, Chance(AwayWin)) == Expectation(pmf, lh, la, Mass)
  {
    GridPartition(pmf, lh, la, SIDE, SIDE);
  }

  // ---------------------------------------------------------------------------------------------
  // Counting the scorelines themselves: with a mass of 1 on every goal count each cell counts 1.

  /** The goal model that gives every goal count weight 1. */
  function UnitPmf(goals: nat, lambda: real): real
  {
    1.0
  }

  lemma {:induction false} UnitMassRow(lh: real, la: real, gh: nat, cols: nat)
    ensures RowSum(UnitPmf, lh, la, Mass, gh, cols) == cols as real
    ensures RowSum(UnitPmf, lh, la, Chance(Draw), gh, cols) == if gh < cols then 1.0 else 0.0
  {
    if cols > 0 {
      UnitMassRow(lh, la, gh, cols - 1);
    }
  }

  lemma {:induction false} UnitMassGrid(lh: real, la: real, rows: nat, cols: nat)
    ensures GridSum(UnitPmf, lh, la, Mass, rows, cols) == (rows * cols) as real
    ensures GridSum(UnitPmf, lh, la, Chance(Draw), rows, cols) == (if rows < cols then rows else cols) as real
  {
    if rows > 0 {
      UnitMassGrid(lh, la, rows - 1, cols);
      UnitMassRow(lh, la, rows - 1, cols);
    }
  }

  /** The grid has 121 scorelines: 11 draws, 55 home wins and 55 away wins. */
  lemma ScorelineCounts(lambda: real)
    ensures Expectation(UnitPmf, lambda, lambda, Mass) == 121.0
    ensures Expectation(UnitPmf, lambda, lambda, Chance(Draw)) == 11.0
    ensures Expectation(UnitPmf, lambda, lambda, Chance(HomeWin)) == 55.0
    ensures Expectation(UnitPmf, lambda, lambda, Chance(AwayWin)) == 55.0
  {
    UnitMassGrid(lambda, lambda, SIDE, SIDE);
    OutcomesPartitionGrid(UnitPmf, lambda, lambda);
    MirrorGrid(UnitPmf, lambda, lambda, Chance(HomeWin), SIDE, SIDE);
  }

  // ---------------------------------------------------------------------------------------------
  // Swapping the two teams swaps the prediction.

  lemma {:induction false} ColSumSplit(pmf: Pmf, lh: real, la: real, m: Measure, rows: nat, cols: nat)
    ensures ColumnwiseSum(pmf, lh, la, m, rows + 1, cols)
            == ColumnwiseSum(pmf, lh, la, m, rows, cols) + RowSum(pmf, lh, la, m, rows, cols)
  {
    if cols > 0 {
      ColSumSplit(pmf, lh, la, m, rows, cols - 1);
    }
  }

  /** Summing the grid row by row or column by column gives the same total. */
  lemma {:induction false} ColumnwiseIsGridSum(pmf: Pmf, lh: real, la: real, m: Measure, rows: nat, cols: nat)
    ensures ColumnwiseSum(pmf, lh, la, m, rows, cols) == GridSum(pmf, lh, la, m, rows, cols)
  {
    if rows == 0 {
      ZeroRowsColumnwise(pmf, lh, la, m, cols);
    } else {
      ColumnwiseIsGridSum(pmf, lh, la, m, rows - 1, cols);
      ColSumSplit(pmf, lh, la, m, rows - 1, cols);
    }
  }

  lemma {:induction false} ZeroRowsColumnwise(pmf: Pmf, lh: real, la: real, m: Measure, cols: nat)
    ensures ColumnwiseSum(pmf, lh, la, m, 0, cols) == 0.0
  {
    if cols > 0 {
      ZeroRowsColumnwise(pmf, lh, la, m, cols - 1);
    }
  }

  /** The measure a side's view maps to when the two sides change places. */
  function Mirror(m: Measure): Measure
  {
    match m
    case Chance(HomeWin) => Chance(AwayWin)
    case Chance(Draw) => Chance(Draw)
    case Chance(AwayWin) => Chance(HomeWin)
    case HomeGoals => AwayGoals
    case AwayGoals => HomeGoals
    case Mass => Mass
  }

  lemma {:induction false} MirrorCol(pmf: Pmf, lh: real, la: real, m: Measure, ga: nat, rows: nat)
    ensures ColSum(pmf, lh, la, m, ga, rows) == RowSum(pmf, la, lh, Mirror(m), ga, rows)
  {
    if rows > 0 {
      MirrorCol(pmf, lh, la, m, ga, rows - 1);
    }
  }

  lemma {:induction false} MirrorGrid(pmf: Pmf, lh: real, la: real, m: Measure, rows: nat, cols: nat)
    ensures GridSum(pmf, lh, la, m, rows, cols) == GridSum(pmf, la, lh, Mirror(m), cols, rows)
  {
    ColumnwiseIsGridSum(pmf, lh, la, m, rows, cols);
    MirrorColumns(pmf, lh, la, m, rows, cols);
  }

  lemma {:induction false} MirrorColumns(pmf: Pmf, lh: real, la: real, m: Measure, rows: nat, cols: nat)
    ensures ColumnwiseSum(pmf, lh, la, m, rows, cols) == GridSum(pmf, la, lh, Mirror(m), cols, rows)
  {
    if cols > 0 {
      MirrorColumns(pmf, lh, la, m, rows, cols - 1);
      MirrorCol(pmf, lh, la, m, cols - 1, rows);
    }
  }

  /** Playing B at home against A predicts for B what playing A at home against B predicts for
      the away side, and the other way round. */
  lemma PredictSwapsSides(s: map<string, Rating>, pmf: Pmf, a: string, b: string)
    ensures Predict(s, pmf, a, b).pointsHome == Predict(s, pmf, b, a).pointsAway
    ensures Predict(s, pmf, a, b).pointsAway == Predict(s, pmf, b, a).pointsHome
    ensures Predict(s, pmf, a, b).goalsHome == Predict(s, pmf, b, a).goalsAway
    ensures Predict(s, pmf, a, b).goalsAway == Predict(s, pmf, b, a).goalsHome
  {
    if a in s && b in s {
      var lh := s[a].scored * s[b].against;
      var la := s[b].scored * s[a].against;
      MirrorGrid(pmf, lh, la, Chance(HomeWin), SIDE, SIDE);
      MirrorGrid(pmf, lh, la, Chance(AwayWin), SIDE, SIDE);
      MirrorGrid(pmf, lh, la, Chance(Draw), SIDE, SIDE);
      MirrorGrid(pmf, lh, la, HomeGoals, SIDE, SIDE);
      MirrorGrid(pmf, lh, la, AwayGoals, SIDE, SIDE);
    }
  }
}
