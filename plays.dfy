/** Play records and the two row filters that prepare them: the situational
    filter used by the Markov models and the team-only filter used by
    Q-learning. Both derive the same four columns for every kept play. */
module Plays {
  import opened Util

  datatype PlayType = Rush | Pass

  /** One play-by-play row as the data set holds it. The sort keys (game id,
      minute, second) are not fields: rows arrive already in game order. */
  datatype RawPlay = RawPlay(
    offenseTeam: string,
    quarter: int,
    down: int,
    toGo: int,
    yards: int,
    yardLineDirection: string,
    playType: Option<string>,  // None: the play type is missing
    formation: string,
    isTouchdown: int,
    isInterception: int,
    isFumble: int,
    isSack: int)

  /** Quarter 5 is written "OT". */
  datatype QuarterLabel = Numbered(n: int) | OT

  /** The resulting-down column: a down number written as text, "TD" or "TO". */
  datatype Label = Num(n: int) | TD | TO

  /** The yards-to-go column; Unset is the 0 it is initialised with. */
  datatype Bucket = Unset | Short | Medium | Long

  /** A kept, derived play. */
  datatype PlayRecord = PlayRecord(
    team: string,
    quarter: QuarterLabel,
    down: int,
    yardsToGo: Bucket,
    nextDown: Label,
    yardLine: string,
    playType: PlayType,
    formation: string,
    isTouchdown: bool,
    isTurnover: bool,
    isNegativePlay: bool)

  /** Play results as the MDP tallies them and the HMM observes them. */
  datatype Outcome = FirstDown | NextDown | Touchdown | Turnover | NegativePlay

  /** The caller's reward vector, in the order
      [Turnover, NegativePlay, NextDown, FirstDown, Touchdown]. */
  datatype Rewards = Rewards(turnover: real, negPlay: real, nextDown: real, firstDown: real, touchdown: real)

  function RewardsOf(reward: seq<real>): Rewards
    requires |reward| >= 5
  {
    Rewards(reward[0], reward[1], reward[2], reward[3], reward[4])
  }

  // ---------------------------------------------------------------------
  // Derived columns

  /** Rows with a missing play type are dropped; only PASS and RUSH are kept. */
  function PlayTypeOf(s: Option<string>): (r: Option<PlayType>)
    ensures r == Some(Pass) <==> s == Some("PASS")
    ensures r == Some(Rush) <==> s == Some("RUSH")
  {
    match s
    case None => None
    case Some(t) => if t == "PASS" then Some(Pass) else if t == "RUSH" then Some(Rush) else None
  }

  /** Quarter 5 becomes "OT"; every other quarter keeps its number. */
  function QuarterLabelOf(q: int): (l: QuarterLabel)
    ensures l == OT <==> q == 5
    ensures l.Numbered? ==> l.n == q
  {
    if q == 5 then OT else Numbered(q)
  }

  /** After the touchdown step the resulting-down column holds text, and text
      never compares equal to the integer 5: the two fourth-down corrections
      that test for 5 never apply. */
  predicate TextEqualsInt(l: Label, k: int) {
    false
  }

  /** The resulting-down column, step by step as the rows are rewritten. */
  function NextDownLabel(p: RawPlay): (l: Label)
    ensures l != TO
    ensures l == TD <==> p.isTouchdown == 1
    ensures p.isTouchdown != 1 && p.yards >= p.toGo ==> l == Num(1)
    ensures p.isTouchdown != 1 && p.yards < p.toGo ==> l == Num(p.down + 1)
  {
    var gained := if p.yards < p.toGo then p.down + 1 else 1;
    var withTouchdown := if p.isTouchdown == 1 then TD else Num(gained);
    var converted := if TextEqualsInt(withTouchdown, 5) && p.yards >= p.toGo then Num(1) else withTouchdown;
    if TextEqualsInt(converted, 5) && p.yards < p.toGo then TO else converted
  }

  function TurnoverFlag(p: RawPlay): (t: bool)
    ensures t <==> p.isInterception + p.isFumble != 0
  {
    var lost := p.isInterception + p.isFumble != 0;
    if NextDownLabel(p) == TO then true else lost
  }

  /** The yards-to-go bucket: three overwrites in order, the later winning. */
  function YardsToGoBucket(toGo: int): (b: Bucket)
    ensures b != Short && b != Unset
    ensures b == Medium <==> toGo <= 10
    ensures b == Long <==> toGo > 10
  {
    var initial := Unset;
    var short := if toGo <= 5 then Short else initial;
    var medium := if toGo <= 10 then Medium else short;
    if toGo > 10 then Long else medium
  }

  /** What every derived record satisfies. */
  predicate WellFormed(r: PlayRecord) {
    r.nextDown != TO
    && (r.nextDown == TD <==> r.isTouchdown)
    && (r.yardsToGo == Medium || r.yardsToGo == Long)
  }

  function Derive(p: RawPlay, pt: PlayType): (r: PlayRecord)
    ensures r.team == p.offenseTeam && r.down == p.down && r.yardLine == p.yardLineDirection
    ensures r.playType == pt && r.formation == p.formation
    ensures r.quarter == QuarterLabelOf(p.quarter) && (r.quarter == OT <==> p.quarter == 5)
    ensures r.yardsToGo == YardsToGoBucket(p.toGo)
    ensures r.nextDown == NextDownLabel(p) && r.isTouchdown == (p.isTouchdown == 1)
    ensures r.isTurnover <==> p.isInterception + p.isFumble != 0
    ensures r.isNegativePlay <==> p.isSack == 1 || p.yards < 0
    ensures WellFormed(r)
  {
    PlayRecord(
      p.offenseTeam, QuarterLabelOf(p.quarter), p.down, YardsToGoBucket(p.toGo),
      NextDownLabel(p), p.yardLineDirection, pt, p.formation,
      p.isTouchdown == 1, TurnoverFlag(p), p.isSack == 1 || p.yards < 0)
  }

  /** A failed fourth down keeps the label 5 and is not flagged as a turnover
      unless the ball was intercepted or fumbled. */
  lemma FailedFourthDownKeepsFive(p: RawPlay, pt: PlayType)
    requires p.down == 4 && p.yards < p.toGo && p.isTouchdown != 1
    ensures Derive(p, pt).nextDown == Num(5)
    ensures Derive(p, pt).isTurnover == (p.isInterception + p.isFumble != 0)
  {
  }

  // ---------------------------------------------------------------------
  // Filters

  /** The two ways rows are selected. */
  datatype Query =
    | Situation(quarter: int, down: int, team: string, side: string)
    | TeamOnly(team: string)

  /** The quarter whose plays are pooled with the requested one. */
  function OtherQuarter(q: int): (o: int)
    ensures 1 <= q <= 4 ==> 1 <= o <= 4 && o != q && (o - 1) / 2 == (q - 1) / 2
    ensures q == 5 ==> o == 4
  {
    if q == 1 || q == 3 then q + 1 else q - 1
  }

  predicate Selects(query: Query, p: RawPlay) {
    match query
    case Situation(q, d, t, s) =>
      p.offenseTeam == t && p.down == d && p.yardLineDirection == s
      && (p.quarter == q || p.quarter == OtherQuarter(q))
    case TeamOnly(t) => p.offenseTeam == t
  }

  /** What a kept record says about the query that kept it. */
  predicate Matches(query: Query, r: PlayRecord) {
    match query
    case Situation(q, d, t, s) =>
      r.team == t && r.down == d && r.yardLine == s
      && (r.quarter == QuarterLabelOf(q) || r.quarter == QuarterLabelOf(OtherQuarter(q)))
    case TeamOnly(t) => r.team == t
  }

  /** The record a raw row becomes, if the query keeps it. */
  function Keep(query: Query, p: RawPlay): (r: Option<PlayRecord>)
    ensures r.Some? <==> Selects(query, p) && (p.playType == Some("PASS") || p.playType == Some("RUSH"))
    ensures r.Some? ==> Matches(query, r.value) && WellFormed(r.value)
    ensures r.Some? ==> r.value.playType == (if p.playType == Some("PASS") then Pass else Rush)
  {
    if !Selects(query, p) then None
    else
      match PlayTypeOf(p.playType)
      case None => None
      case Some(pt) => Some(Derive(p, pt))
  }

  /** markov_reorganize (Situation) and q_reorganize (TeamOnly) on rows that
      are already sorted by game, quarter and clock. */
  function Reorganize(rows: seq<RawPlay>, query: Query): (r: seq<PlayRecord>)
    ensures |r| <= |rows|
    ensures forall i :: 0 <= i < |r| ==> Matches(query, r[i]) && WellFormed(r[i])
  {
    if rows == [] then []
    else
      var kept := Reorganize(rows[..|rows| - 1], query);
      match Keep(query, rows[|rows| - 1])
      case None => kept
      case Some(rec) => kept + [rec]
  }

  /** Filtering commutes with concatenation: kept rows stay in input order. */
  lemma {:induction false} ReorganizeAppend(a: seq<RawPlay>, b: seq<RawPlay>, query: Query)
    ensures Reorganize(a + b, query) == Reorganize(a, query) + Reorganize(b, query)
  {
    if b == [] {
      assert a + b == a;
    } else {
      var ab := a + b;
      assert ab[..|ab| - 1] == a + b[..|b| - 1];
      ReorganizeAppend(a, b[..|b| - 1], query);
    }
  }

  /** Every row the query keeps is in the output, between the rows kept
      before it and the rows kept after it. */
  lemma ReorganizeKeeps(rows: seq<RawPlay>, query: Query, j: nat)
    requires j < |rows| && Keep(query, rows[j]).Some?
    ensures Reorganize(rows, query)
         == Reorganize(rows[..j], query) + [Keep(query, rows[j]).value] + Reorganize(rows[j + 1..], query)
  {
    assert rows == rows[..j] + [rows[j]] + rows[j + 1..];
    ReorganizeAppend(rows[..j] + [rows[j]], rows[j + 1..], query);
    ReorganizeAppend(rows[..j], [rows[j]], query);
    assert [rows[j]][..0] == [];
  }

  // ---------------------------------------------------------------------
  // Formation lists

  ghost predicate HasFormation(rows: seq<PlayRecord>, pt: PlayType, f: string) {
    exists i :: 0 <= i < |rows| && rows[i].playType == pt && rows[i].formation == f
  }

  /** `fs` lists each formation seen with play type pt exactly once. */
  ghost predicate ListsFormations(fs: seq<string>, rows: seq<PlayRecord>, pt: PlayType) {
    Distinct(fs) && forall f :: f in fs <==> HasFormation(rows, pt, f)
  }

  /** The index of the first row of play type pt with formation f. */
  ghost function FirstIndex(rows: seq<PlayRecord>, pt: PlayType, f: string): (i: nat)
    requires HasFormation(rows, pt, f)
    ensures i < |rows| && rows[i].playType == pt && rows[i].formation == f
    ensures forall j :: 0 <= j < i ==> !(rows[j].playType == pt && rows[j].formation == f)
  {
    var prefix := rows[..|rows| - 1];
    if HasFormation(prefix, pt, f) then
      var i := FirstIndex(prefix, pt, f);
      assert forall j :: 0 <= j <= i ==> rows[j] == prefix[j];
      i
    else
      assert forall j :: 0 <= j < |prefix| ==> rows[j] == prefix[j];
      |rows| - 1
  }

  /** What one more row adds: its formation, if of play type pt, first
      seen at its own index; earlier formations keep their first index. */
  lemma FormationsSnoc(rows: seq<PlayRecord>, pt: PlayType)
    requires rows != []
    ensures var prefix, last := rows[..|rows| - 1], rows[|rows| - 1];
      && (forall f :: HasFormation(rows, pt, f) <==> HasFormation(prefix, pt, f) || (last.playType == pt && last.formation == f))
      && (forall f :: HasFormation(prefix, pt, f) ==> FirstIndex(rows, pt, f) == FirstIndex(prefix, pt, f))
      && (last.playType == pt && !HasFormation(prefix, pt, last.formation) ==> FirstIndex(rows, pt, last.formation) == |rows| - 1)
  {
    var prefix, last := rows[..|rows| - 1], rows[|rows| - 1];
    forall f ensures HasFormation(rows, pt, f) ==> HasFormation(prefix, pt, f) || (last.playType == pt && last.formation == f) {
      if HasFormation(rows, pt, f) {
        var i :| 0 <= i < |rows| && rows[i].playType == pt && rows[i].formation == f;
        if i < |prefix| { assert prefix[i] == rows[i]; }
      }
    }
    forall f | HasFormation(prefix, pt, f) ensures HasFormation(rows, pt, f) {
      var i :| 0 <= i < |prefix| && prefix[i].playType == pt && prefix[i].formation == f;
      assert rows[i] == prefix[i];
    }
  }

  /** pandas' unique(): formations of the given play type, in order of first appearance. */
  function UniqueFormations(rows: seq<PlayRecord>, pt: PlayType): (fs: seq<string>)
    ensures ListsFormations(fs, rows, pt)
    ensures forall i, j :: 0 <= i < j < |fs| ==> FirstIndex(rows, pt, fs[i]) < FirstIndex(rows, pt, fs[j])
  {
    if rows == [] then []
    else
      var prefix := rows[..|rows| - 1];
      var fs := UniqueFormations(prefix, pt);
      var last := rows[|rows| - 1];
      FormationsSnoc(rows, pt);
      if last.playType == pt && last.formation !in fs then
        fs + [last.formation]
      else fs
  }
}
