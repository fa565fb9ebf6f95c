/** The whole simulation: strength table, group stage, best thirds, and the knockout rounds from
    the round of 16 to the final, as the source runs them one after another. */
module Tournament {
  import opened Strength
  import opened Predictor
  import opened Ranking
  import opened Fixtures
  import opened GroupStage
  import opened ThirdPlace
  import opened Knockout

  /** A group as read from the group tables: its name ("Group A") and its rows. */
  datatype Group = Group(name: string, rows: seq<Row>)

  /** The predictor over a fixed strength table and goal model, as the stages call it. */
  function Predictions(s: map<string, Rating>, pmf: Pmf): (string, string) -> Prediction
  {
    (home: string, away: string) => Predict(s, pmf, home, away)
  }

  /** The finished table of a group: names cleaned, goals reset, fixtures played, ranked. It
      holds every team of the cleaned group table as many times as that table does. */
  function GroupTable(g: Group, stage: seq<Fixture>, predict: (string, string) -> Prediction): (t: seq<Row>)
    ensures |t| == |g.rows| && Ranked(t)
    ensures SameTeams(t, InitTable(g.rows))
  {
    FinishedTable(InitTable(g.rows), stage, predict);
    FinishedGroup(InitTable(g.rows), stage, predict)
  }

  /** Each group's name with the first two teams of its finished table. */
  function GroupResults(groups: seq<Group>, tables: seq<seq<Row>>): (rs: seq<GroupResult>)
    requires |tables| == |groups| && forall g :: 0 <= g < |tables| ==> |tables[g]| >= 2
    ensures |rs| == |groups|
    ensures forall g :: 0 <= g < |groups| ==>
      rs[g] == GroupResult(groups[g].name, tables[g][0].team, tables[g][1].team)
  {
    if groups == [] then []
    else [GroupResult(groups[0].name, tables[0][0].team, tables[0][1].team)] + GroupResults(groups[1..], tables[1..])
  }

  /** Every fixture's winner is one of its two teams. */
  ghost predicate DecidedByTeams(fs: seq<Fixture>)
  {
    forall j :: 0 <= j < |fs| ==> fs[j].winner == fs[j].home || fs[j].winner == fs[j].away
  }

  /** A round with every fixture decided: each keeps its teams and gets one of them as winner. */
  function Decided(fs: seq<Fixture>, predict: (string, string) -> Prediction): (ds: seq<Fixture>)
    ensures |ds| == |fs|
    ensures forall j :: 0 <= j < |fs| ==> ds[j] == fs[j].(winner := WinnerOf(fs[j], predict))
    ensures DecidedByTeams(ds)
  {
    if fs == [] then [] else [fs[0].(winner := WinnerOf(fs[0], predict))] + Decided(fs[1..], predict)
  }

  /** The next round with the winners of the current round written into its placeholders. */
  function AdvancedRound(next: seq<Fixture>, current: seq<Fixture>): (rs: seq<Fixture>)
    ensures |rs| == |next|
    ensures forall j :: 0 <= j < |next| ==> rs[j] == AdvancedFixture(next[j], current)
  {
    if next == [] then [] else [AdvancedFixture(next[0], current)] + AdvancedRound(next[1..], current)
  }

  /** The round of 16 filled from the group results and the best thirds. */
  function FilledRound(round: seq<Fixture>, results: seq<GroupResult>, top: seq<string>): (rs: seq<Fixture>)
    requires |results| == 0 || |top| >= 4
    ensures |rs| == |round|
    ensures forall j :: 0 <= j < |round| ==> rs[j] == FilledFixture(round[j], results, top)
  {
    if round == [] then [] else [FilledFixture(round[0], results, top)] + FilledRound(round[1..], results, top)
  }

  /** The finished tables of the groups, in group order: every one ranked, with as many rows of
      each team as its group's table started with. */
  function GroupTables(groups: seq<Group>, stage: seq<Fixture>, predict: (string, string) -> Prediction): (ts: seq<seq<Row>>)
    ensures |ts| == |groups|
    ensures forall g :: 0 <= g < |groups| ==> |ts[g]| == |groups[g].rows| && Ranked(ts[g])
    ensures forall g :: 0 <= g < |groups| ==> SameTeams(ts[g], InitTable(groups[g].rows))
  {
    seq(|groups|, g requires 0 <= g < |groups| => GroupTable(groups[g], stage, predict))
  }

  /** One group: its table made ready, then its fixtures simulated. */
  method PlayGroup(g: Group, stage: seq<Fixture>, predict: (string, string) -> Prediction) returns (ranked: seq<Row>)
    ensures ranked == GroupTable(g, stage, predict)
  {
    var table := InitTable(g.rows);
    ranked := SimulateGroup(table, stage, predict);
  }

  lemma PrefixStep<T>(s: seq<T>, k: nat)
    requires k < |s|
    ensures s[..k + 1] == s[..k] + [s[k]]
  {
  }

  /** Every group simulated in order. */
  method PlayGroupStage(groups: seq<Group>, stage: seq<Fixture>, predict: (string, string) -> Prediction)
    returns (tables: seq<seq<Row>>)
    ensures tables == GroupTables(groups, stage, predict)
  {
    ghost var all := GroupTables(groups, stage, predict);
    tables := [];
    for g := 0 to |groups|
      invariant tables == all[..g]
    {
      var ranked := PlayGroup(groups[g], stage, predict);
      PrefixStep(all, g);
      tables := tables + [ranked];
    }
    assert all[..|groups|] == all;
  }

  /** The round of 16 filled in and decided. */
  method PlayRoundOf16(template: seq<Fixture>, results: seq<GroupResult>, top: seq<string>,
                       predict: (string, string) -> Prediction)
    returns (round: seq<Fixture>)
    requires |results| == 0 || |top| >= 4
    ensures round == Decided(FilledRound(template, results, top), predict)
  {
    var fixtures := new Fixture[|template|](j requires 0 <= j < |template| => template[j]);
    FillRoundOf16(fixtures, results, top);
    GetWinners(fixtures, predict);
    round := fixtures[..];
    assert round == Decided(FilledRound(template, results, top), predict);
  }

  /** A later round: the winners of the round before advanced into it, then decided. */
  method PlayRound(previous: seq<Fixture>, template: seq<Fixture>, predict: (string, string) -> Prediction)
    returns (round: seq<Fixture>)
    ensures round == Decided(AdvancedRound(template, previous), predict)
  {
    var fixtures := new Fixture[|template|](j requires 0 <= j < |template| => template[j]);
    UpdateTable(previous, fixtures);
    GetWinners(fixtures, predict);
    round := fixtures[..];
    assert round == Decided(AdvancedRound(template, previous), predict);
  }

  /** The four knockout rounds, each with its winners decided. */
  datatype Bracket = Bracket(roundOf16: seq<Fixture>, quarterFinals: seq<Fixture>,
                             semiFinals: seq<Fixture>, final: seq<Fixture>)

  /** The knockout stage from the finished group tables: the round of 16 filled from the group
      results and the best thirds, then every later round advanced from the one before it, each
      round decided. Every round keeps its fixtures and every winner is a team of its fixture. */
  function Knockouts(groups: seq<Group>, tables: seq<seq<Row>>, st: Stages, predict: (string, string) -> Prediction)
    : (b: Bracket)
    requires |tables| == |groups| && forall g :: 0 <= g < |groups| ==> |tables[g]| >= 3
    requires |groups| >= QUALIFYING_THIRDS
    ensures |b.roundOf16| == |st.roundOf16| && |b.quarterFinals| == |st.quarterFinals|
    ensures |b.semiFinals| == |st.semiFinals| && |b.final| == |st.final|
    ensures DecidedByTeams(b.roundOf16) && DecidedByTeams(b.quarterFinals)
    ensures DecidedByTeams(b.semiFinals) && DecidedByTeams(b.final)
  {
    var roundOf16 := Decided(FilledRound(st.roundOf16, GroupResults(groups, tables), BestThirds(tables)), predict);
    var quarterFinals := Decided(AdvancedRound(st.quarterFinals, roundOf16), predict);
    var semiFinals := Decided(AdvancedRound(st.semiFinals, quarterFinals), predict);
    Bracket(roundOf16, quarterFinals, semiFinals, Decided(AdvancedRound(st.final, semiFinals), predict))
  }

  /** The knockout stage played round by round on the fixture tables. */
  method PlayKnockouts(groups: seq<Group>, tables: seq<seq<Row>>, st: Stages, predict: (string, string) -> Prediction)
    returns (bracket: Bracket)
    requires |tables| == |groups| && forall g :: 0 <= g < |groups| ==> |tables[g]| >= 3
    requires |groups| >= QUALIFYING_THIRDS
    ensures bracket == Knockouts(groups, tables, st, predict)
  {
    var top := BestThirds(tables);
    var results := GroupResults(groups, tables);
    var roundOf16 := PlayRoundOf16(st.roundOf16, results, top, predict);
    var quarterFinals := PlayRound(roundOf16, st.quarterFinals, predict);
    var semiFinals := PlayRound(quarterFinals, st.semiFinals, predict);
    var final := PlayRound(semiFinals, st.final, predict);
    bracket := Bracket(roundOf16, quarterFinals, semiFinals, final);
  }

  /** The simulated tournament: the strength table from the match history, every group played
      and ranked, then the knockout stage from the group tables, all with the same predictor. */
  method SimulateTournament(history: seq<Match>, pmf: Pmf, groups: seq<Group>, fixtures: seq<Fixture>)
    returns (tables: seq<seq<Row>>, bracket: Bracket)
    requires forall g :: 0 <= g < |groups| ==> |groups[g].rows| >= 3
    requires |groups| >= QUALIFYING_THIRDS
    ensures tables == GroupTables(groups, SplitStages(fixtures).groupStage, Predictions(TeamStrength(history), pmf))
    ensures bracket == Knockouts(groups, tables, SplitStages(fixtures), Predictions(TeamStrength(history), pmf))
  {
    var strength := TeamStrength(history);
    var predict := Predictions(strength, pmf);
    var st := SplitStages(fixtures);
    tables := PlayGroupStage(groups, st.groupStage, predict);
    bracket := PlayKnockouts(groups, tables, st, predict);
  }
}
