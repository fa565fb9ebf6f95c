/** The tournament's fixture list and its split into stages by row position. */
module Fixtures {

  /** One fixture row: the home and away cells (a team or a placeholder such as "Winner Group A"),
      the score cell (for a knockout fixture the match code, such as "Match 39") and the winner
      cell that the knockout stage fills in. */
  datatype Fixture = Fixture(home: string, away: string, score: string, winner: string)

  /** The fixture list split by position: rows 0-35 are the group stage, 36-43 the round of 16,
      44-47 the quarter-finals, 48-49 the semi-finals and the rest the final. */
  datatype Stages = Stages(groupStage: seq<Fixture>, roundOf16: seq<Fixture>, quarterFinals: seq<Fixture>,
                           semiFinals: seq<Fixture>, final: seq<Fixture>)

  function Min(a: nat, b: nat): nat
  {
    if a < b then a else b
  }

  /** fs[lo:hi] with Python's clamping of bounds past the end of the list. */
  function Slice(fs: seq<Fixture>, lo: nat, hi: nat): seq<Fixture>
    requires lo <= hi
  {
    fs[Min(lo, |fs|)..Min(hi, |fs|)]
  }

  /** The five stages: each a contiguous slice, together the whole fixture list in order, and of
      the sizes 36, 8, 4 and 2 whenever the list reaches the final. */
  function SplitStages(fs: seq<Fixture>): (st: Stages)
    ensures st.groupStage + st.roundOf16 + st.quarterFinals + st.semiFinals + st.final == fs
    ensures |fs| >= 50 ==>
      |st.groupStage| == 36 && |st.roundOf16| == 8 && |st.quarterFinals| == 4 && |st.semiFinals| == 2
    ensures |fs| >= 50 ==> st.final == fs[50..] && st.roundOf16 == fs[36..44]
    ensures |fs| <= 36 ==> st.groupStage == fs && st.roundOf16 == [] && st.final == []
  {
    var st := Stages(Slice(fs, 0, 36), Slice(fs, 36, 44), Slice(fs, 44, 48), Slice(fs, 48, 50),
                     fs[Min(50, |fs|)..]);
    assert fs == fs[..Min(36, |fs|)] + fs[Min(36, |fs|)..Min(44, |fs|)] + fs[Min(44, |fs|)..Min(48, |fs|)]
                 + fs[Min(48, |fs|)..Min(50, |fs|)] + fs[Min(50, |fs|)..];
    st
  }
}
