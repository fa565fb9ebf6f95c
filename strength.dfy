/** Team strength ratings derived from historical matches.

    Every historical match is looked at twice: once from the home team's side and once from the away
    team's side (with the goals swapped). The two views are pooled, grouped by team and averaged. */
module Strength {

  /** One historical match, as read from the historical results table. */
  datatype Match = Match(home: string, away: string, homeGoals: nat, awayGoals: nat, year: int)

  /** One team's view of a match: the team, the goals it scored and the goals it conceded. */
  datatype View = View(team: string, scored: nat, against: nat)

  /** A team's strength: mean goals scored and mean goals conceded per appearance. */
  datatype Rating = Rating(scored: real, against: real)

  /** The home view of every match, in match order. */
  function HomeViews(ms: seq<Match>): seq<View>
  {
    if ms == [] then [] else [View(ms[0].home, ms[0].homeGoals, ms[0].awayGoals)] + HomeViews(ms[1..])
  }

  /** The away view of every match: the away team scored the away goals and conceded the home goals. */
  function AwayViews(ms: seq<Match>): seq<View>
  {
    if ms == [] then [] else [View(ms[0].away, ms[0].awayGoals, ms[0].homeGoals)] + AwayViews(ms[1..])
  }

  /** Both views, one after the other, as the concatenation of the two renamed tables. */
  function Pooled(ms: seq<Match>): seq<View>
  {
    HomeViews(ms) + AwayViews(ms)
  }

  /** Number of views that belong to team t. */
  function Appearances(vs: seq<View>, t: string): (n: nat)
    ensures n > 0 <==> exists i :: 0 <= i < |vs| && vs[i].team == t
  {
    if vs == [] then 0
    else
      assert forall i :: 1 <= i < |vs| ==> vs[i] == vs[1..][i - 1];
      (if vs[0].team == t then 1 else 0) + Appearances(vs[1..], t)
  }

  /** Goals scored by team t, summed over its views. */
  function ScoredTotal(vs: seq<View>, t: string): nat
  {
    if vs == [] then 0 else (if vs[0].team == t then vs[0].scored else 0) + ScoredTotal(vs[1..], t)
  }

  /** Goals conceded by team t, summed over its views. */
  function AgainstTotal(vs: seq<View>, t: string): nat
  {
    if vs == [] then 0 else (if vs[0].team == t then vs[0].against else 0) + AgainstTotal(vs[1..], t)
  }

  /** The teams that own at least one view: the index of the grouped table. */
  function Teams(vs: seq<View>): set<string>
  {
    set v | v in vs :: v.team
  }

  /** The grouped mean of the pooled views: one rating per team that appears in some view. */
  function GroupMean(vs: seq<View>): map<string, Rating>
  {
    map t | t in Teams(vs) ::
      TeamHasViews(vs, t);
      Rating(ScoredTotal(vs, t) as real / Appearances(vs, t) as real,
             AgainstTotal(vs, t) as real / Appearances(vs, t) as real)
  }

  lemma TeamHasViews(vs: seq<View>, t: string)
    requires t in Teams(vs)
    ensures Appearances(vs, t) > 0
  {
    var v :| v in vs && v.team == t;
    var i :| 0 <= i < |vs| && vs[i] == v;
  }

  // ---------------------------------------------------------------------------------------------
  // Reference definitions stated on the matches themselves, without the two views.

  /** Matches team t appeared in, counting a match twice if t were both home and away. */
  function GamesPlayed(ms: seq<Match>, t: string): nat
  {
    if ms == [] then 0
    else (if ms[0].home == t then 1 else 0) + (if ms[0].away == t then 1 else 0) + GamesPlayed(ms[1..], t)
  }

  /** Goals team t scored: its home goals as home team plus its away goals as away team. */
  function GoalsScoredBy(ms: seq<Match>, t: string): nat
  {
    if ms == [] then 0
    else (if ms[0].home == t then ms[0].homeGoals else 0) + (if ms[0].away == t then ms[0].awayGoals else 0)
         + GoalsScoredBy(ms[1..], t)
  }

  /** Goals team t conceded: the away goals as home team plus the home goals as away team. */
  function GoalsConcededBy(ms: seq<Match>, t: string): nat
  {
    if ms == [] then 0
    else (if ms[0].home == t then ms[0].awayGoals else 0) + (if ms[0].away == t then ms[0].homeGoals else 0)
         + GoalsConcededBy(ms[1..], t)
  }

  /** True when team t is the home or the away team of some match. */
  ghost predicate Appeared(ms: seq<Match>, t: string)
  {
    exists i :: 0 <= i < |ms| && (ms[i].home == t || ms[i].away == t)
  }

  // ---------------------------------------------------------------------------------------------
  // The strength table and its characterisation.

  /** The team strength table. A team with no appearance has no entry, and the rating of every
      team that appeared is the mean of its goals scored and of its goals conceded over all its
      home and away appearances together. */
  function TeamStrength(ms: seq<Match>): (s: map<string, Rating>)
    ensures forall t :: t in s <==> GamesPlayed(ms, t) > 0
    ensures forall t :: t in s ==>
      s[t] == Rating(GoalsScoredBy(ms, t) as real / GamesPlayed(ms, t) as real,
                     GoalsConcededBy(ms, t) as real / GamesPlayed(ms, t) as real)
  {
    PooledTotals(ms);
    GroupMean(Pooled(ms))
  }

  /** A team has a rating exactly when it appeared in some historical match. */
  lemma {:induction false} RatedIffAppeared(ms: seq<Match>, t: string)
    ensures t in TeamStrength(ms) <==> Appeared(ms, t)
  {
    if ms == [] {
    } else {
      RatedIffAppeared(ms[1..], t);
      if !(ms[0].home == t || ms[0].away == t) && Appeared(ms, t) {
        var i :| 0 <= i < |ms| && (ms[i].home == t || ms[i].away == t);
        assert ms[1..][i - 1] == ms[i];
      }
      if Appeared(ms[1..], t) {
        var i :| 0 <= i < |ms[1..]| && (ms[1..][i].home == t || ms[1..][i].away == t);
        assert ms[i + 1] == ms[1..][i];
      }
    }
  }

  lemma {:induction false} ConcatTotals(a: seq<View>, b: seq<View>, t: string)
    ensures Appearances(a + b, t) == Appearances(a, t) + Appearances(b, t)
    ensures ScoredTotal(a + b, t) == ScoredTotal(a, t) + ScoredTotal(b, t)
    ensures AgainstTotal(a + b, t) == AgainstTotal(a, t) + AgainstTotal(b, t)
    ensures t in Teams(a + b) <==> t in Teams(a) || t in Teams(b)
  {
    if a == [] {
      assert a + b == b;
    } else {
      assert (a + b)[1..] == a[1..] + b;
      ConcatTotals(a[1..], b, t);
      assert Teams(a) == {a[0].team} + Teams(a[1..]);
      assert Teams(a + b) == {a[0].team} + Teams(a[1..] + b);
    }
  }

  lemma {:induction false} ViewTotals(ms: seq<Match>, t: string)
    ensures Appearances(HomeViews(ms), t) + Appearances(AwayViews(ms), t) == GamesPlayed(ms, t)
    ensures ScoredTotal(HomeViews(ms), t) + ScoredTotal(AwayViews(ms), t) == GoalsScoredBy(ms, t)
    ensures AgainstTotal(HomeViews(ms), t) + AgainstTotal(AwayViews(ms), t) == GoalsConcededBy(ms, t)
  {
    if ms != [] {
      ViewTotals(ms[1..], t);
    }
  }

  lemma TeamsAppear(vs: seq<View>, t: string)
    ensures t in Teams(vs) <==> Appearances(vs, t) > 0
  {
    if Appearances(vs, t) > 0 {
      var i :| 0 <= i < |vs| && vs[i].team == t;
      assert vs[i] in vs;
    }
  }

  lemma PooledTotals(ms: seq<Match>)
    ensures forall t :: Appearances(Pooled(ms), t) == GamesPlayed(ms, t)
    ensures forall t :: ScoredTotal(Pooled(ms), t) == GoalsScoredBy(ms, t)
    ensures forall t :: AgainstTotal(Pooled(ms), t) == GoalsConcededBy(ms, t)
    ensures forall t :: t in Teams(Pooled(ms)) <==> GamesPlayed(ms, t) > 0
  {
    forall t
      ensures Appearances(Pooled(ms), t) == GamesPlayed(ms, t)
      ensures ScoredTotal(Pooled(ms), t) == GoalsScoredBy(ms, t)
      ensures AgainstTotal(Pooled(ms), t) == GoalsConcededBy(ms, t)
      ensures t in Teams(Pooled(ms)) <==> GamesPlayed(ms, t) > 0
    {
      ConcatTotals(HomeViews(ms), AwayViews(ms), t);
      ViewTotals(ms, t);
      TeamsAppear(Pooled(ms), t);
    }
  }
}
