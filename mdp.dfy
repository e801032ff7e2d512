/** The one-step Markov decision process play selector: per-formation outcome
    frequencies for rush and pass plays, then the (play type, formation,
    outcome) triple of largest probability-times-reward. */
module Mdp {
  import opened Util
  import opened Plays

  /** Outcome counts of one formation with one play type. */
  datatype Stats = Stats(firstDown: nat, nextDown: nat, touchdown: nat, turnover: nat, negativePlay: nat, totalPlays: nat)

  /** The same counts divided by the formation's total. */
  datatype Probs = Probs(firstDown: real, nextDown: real, touchdown: real, turnover: real, negativePlay: real)

  /** One row of the rush or pass table, keyed by formation. */
  datatype FormationRow = FormationRow(formation: string, stats: Stats, probs: Probs)

  const NoPlays := Stats(0, 0, 0, 0, 0, 0)

  /** The outcome column of a table row. */
  function Column(s: Stats, o: Outcome): nat {
    match o
    case FirstDown => s.firstDown
    case NextDown => s.nextDown
    case Touchdown => s.touchdown
    case Turnover => s.turnover
    case NegativePlay => s.negativePlay
  }

  /** The plays each outcome column counts: label 1 for first down, any label
      but 1, TD and TO for next down, and the touchdown, turnover and
      negative-play flags for the last three. */
  predicate Tallied(r: PlayRecord, o: Outcome) {
    match o
    case FirstDown => r.nextDown == Num(1)
    case NextDown => r.nextDown != Num(1) && r.nextDown != TD && r.nextDown != TO
    case Touchdown => r.isTouchdown
    case Turnover => r.isTurnover
    case NegativePlay => r.isNegativePlay
  }

  /** A play of the formation that the outcome's column counts. */
  predicate Counts(r: PlayRecord, pt: PlayType, f: string, o: Outcome) {
    r.playType == pt && r.formation == f && Tallied(r, o)
  }

  /** What one play of the formation adds: five independent tests, so a play
      can count under NextDown and Turnover at once. */
  function Tally(s: Stats, r: PlayRecord): (t: Stats)
    ensures t.totalPlays == s.totalPlays + 1
    ensures forall o :: Column(t, o) == Column(s, o) + (if Tallied(r, o) then 1 else 0)
    ensures Bounded(s) ==> Bounded(t)
    ensures WellFormed(r) ==> t.firstDown + t.nextDown + t.touchdown == s.firstDown + s.nextDown + s.touchdown + 1
  {
    Stats(
      s.firstDown + (if r.nextDown == Num(1) then 1 else 0),
      s.nextDown + (if r.nextDown != Num(1) && r.nextDown != TD && r.nextDown != TO then 1 else 0),
      s.touchdown + (if r.isTouchdown then 1 else 0),
      s.turnover + (if r.isTurnover then 1 else 0),
      s.negativePlay + (if r.isNegativePlay then 1 else 0),
      s.totalPlays + 1)
  }

  /** The counts of formation f among the plays of type pt. */
  function Count(rows: seq<PlayRecord>, pt: PlayType, f: string): (c: Stats)
    ensures c.totalPlays <= |rows|
  {
    if rows == [] then NoPlays
    else
      var s := Count(rows[..|rows| - 1], pt, f);
      var r := rows[|rows| - 1];
      if r.playType == pt && r.formation == f then Tally(s, r) else s
  }

  /** Every outcome column of a formation's counts is the number of its plays
      that column's test accepts. */
  lemma CountColumns(rows: seq<PlayRecord>, pt: PlayType, f: string, o: Outcome)
    ensures Column(Count(rows, pt, f), o) == |set i | 0 <= i < |rows| && Counts(rows[i], pt, f, o)|
  {
    assert rows[..|rows|] == rows;
    CountPrefixColumns(rows, |rows|, pt, f, o);
  }

  lemma {:induction false} CountPrefixColumns(rows: seq<PlayRecord>, k: nat, pt: PlayType, f: string, o: Outcome)
    requires k <= |rows|
    ensures Column(Count(rows[..k], pt, f), o) == |set i | 0 <= i < k && Counts(rows[i], pt, f, o)|
  {
    if k > 0 {
      CountPrefixColumns(rows, k - 1, pt, f, o);
      assert rows[..k][..k - 1] == rows[..k - 1];
      TalliedSnoc(rows, k, pt, f, o);
    }
  }

  /** The plays a column counts, one play at a time from the back. */
  lemma TalliedSnoc(rows: seq<PlayRecord>, k: nat, pt: PlayType, f: string, o: Outcome)
    requires 0 < k <= |rows|
    ensures |set i | 0 <= i < k && Counts(rows[i], pt, f, o)|
         == |set i | 0 <= i < k - 1 && Counts(rows[i], pt, f, o)| + (if Counts(rows[k - 1], pt, f, o) then 1 else 0)
  {
    var before := set i | 0 <= i < k - 1 && Counts(rows[i], pt, f, o);
    var after := set i | 0 <= i < k && Counts(rows[i], pt, f, o);
    if Counts(rows[k - 1], pt, f, o) {
      assert after == before + {k - 1};
    } else {
      assert after == before;
    }
  }

  /** No outcome is counted more often than the formation was played, and a
      play is never both a first down and a next down. */
  predicate Bounded(s: Stats) {
    s.firstDown + s.nextDown <= s.totalPlays
    && s.touchdown <= s.totalPlays
    && s.turnover <= s.totalPlays
    && s.negativePlay <= s.totalPlays
  }

  lemma {:induction false} CountBounded(rows: seq<PlayRecord>, pt: PlayType, f: string)
    ensures Bounded(Count(rows, pt, f))
    ensures Count(rows, pt, f).totalPlays > 0 <==> HasFormation(rows, pt, f)
  {
    if rows != [] {
      var prefix := rows[..|rows| - 1];
      CountBounded(prefix, pt, f);
      if HasFormation(prefix, pt, f) {
        var i :| 0 <= i < |prefix| && prefix[i].playType == pt && prefix[i].formation == f;
        assert rows[i] == prefix[i];
      }
      if HasFormation(rows, pt, f) {
        var i :| 0 <= i < |rows| && rows[i].playType == pt && rows[i].formation == f;
        if i < |prefix| { assert prefix[i] == rows[i]; }
      }
    }
  }

  /** The (play type, formation) pair of every play, in order. */
  function Keys(rows: seq<PlayRecord>): (k: seq<(PlayType, string)>)
    ensures |k| == |rows|
  {
    seq(|rows|, i requires 0 <= i < |rows| => (rows[i].playType, rows[i].formation))
  }

  /** A formation's total is the number of plays with its play type and
      formation. */
  lemma {:induction false} CountTotal(rows: seq<PlayRecord>, pt: PlayType, f: string)
    ensures Count(rows, pt, f).totalPlays == multiset(Keys(rows))[(pt, f)]
  {
    if rows != [] {
      var prefix := rows[..|rows| - 1];
      var last := rows[|rows| - 1];
      CountTotal(prefix, pt, f);
      assert Keys(rows) == Keys(prefix) + [(last.playType, last.formation)];
    }
  }

  /** On derived records each play is exactly one of first down, next down
      and touchdown. */
  lemma {:induction false} CountPartition(rows: seq<PlayRecord>, pt: PlayType, f: string)
    requires forall i :: 0 <= i < |rows| ==> WellFormed(rows[i])
    ensures var s := Count(rows, pt, f); s.firstDown + s.nextDown + s.touchdown == s.totalPlays
  {
    if rows != [] {
      CountPartition(rows[..|rows| - 1], pt, f);
    }
  }

  /** First down, next down, touchdown and turnover are not mutually
      exclusive, and their probabilities can add up to more than 1: an
      interception short of the line to gain is tallied as a next down and as
      a turnover. */
  lemma ExclusiveOutcomesCanExceedTotal()
    ensures var p := RawPlay("AAA", 1, 3, 5, 0, "OWN", Some("PASS"), "SHOTGUN", 0, 1, 0, 0);
            var s := Count([Derive(p, Pass)], Pass, "SHOTGUN");
            s.totalPlays == 1 && s.firstDown + s.nextDown + s.touchdown + s.turnover == 2
  {
    var p := RawPlay("AAA", 1, 3, 5, 0, "OWN", Some("PASS"), "SHOTGUN", 0, 1, 0, 0);
    var rows := [Derive(p, Pass)];
    assert rows[..0] == [];
  }

  predicate ProbsInUnit(p: Probs) {
    InUnit(p.firstDown) && InUnit(p.nextDown) && InUnit(p.touchdown)
    && InUnit(p.turnover) && InUnit(p.negativePlay)
  }

  /** The probability columns: each count divided by the formation's total. */
  function Probabilities(s: Stats): Probs
    requires s.totalPlays > 0
  {
    var n := s.totalPlays as real;
    Probs(s.firstDown as real / n, s.nextDown as real / n, s.touchdown as real / n,
          s.turnover as real / n, s.negativePlay as real / n)
  }

  /** Bounded counts give probabilities in [0, 1], with the first-down and
      next-down probabilities summing to at most 1. */
  lemma ProbabilitiesBounded(s: Stats)
    requires s.totalPlays > 0 && Bounded(s)
    ensures var p := Probabilities(s); ProbsInUnit(p) && p.firstDown + p.nextDown <= 1.0
  {
    var n := s.totalPlays as real;
    RatioInUnit(s.firstDown, s.totalPlays);
    RatioInUnit(s.nextDown, s.totalPlays);
    RatioInUnit(s.touchdown, s.totalPlays);
    RatioInUnit(s.turnover, s.totalPlays);
    RatioInUnit(s.negativePlay, s.totalPlays);
    RatioInUnit(s.firstDown + s.nextDown, s.totalPlays);
    RatioSum(s.firstDown as real, s.nextDown as real, n);
  }

  /** table is the rush or pass table of rows for the formations fs, in order. */
  ghost predicate Describes(table: seq<FormationRow>, rows: seq<PlayRecord>, pt: PlayType, fs: seq<string>) {
    |table| == |fs|
    && forall j :: 0 <= j < |table| ==>
         table[j].formation == fs[j]
         && table[j].stats == Count(rows, pt, fs[j])
         && table[j].stats.totalPlays > 0
         && table[j].probs == Probabilities(table[j].stats)
  }

  /** The inner counting loop of MDP.calculate: one pass over the plays,
      tallying those of type pt in formation f. */
  method CountPlays(rows: seq<PlayRecord>, pt: PlayType, f: string) returns (s: Stats)
    ensures s == Count(rows, pt, f)
  {
    s := NoPlays;
    for i := 0 to |rows|
      invariant s == Count(rows[..i], pt, f)
    {
      var row := rows[i];
      assert rows[..i + 1][..i] == rows[..i] && rows[..i + 1][i] == row;
      assert Count(rows[..i + 1], pt, f)
          == if row.playType == pt && row.formation == f then Tally(s, row) else s;
      if row.playType == pt && row.formation == f {
        ghost var before := s;
        ghost var t := Tally(before, row);
        if row.nextDown == Num(1) {
          s := s.(firstDown := s.firstDown + 1);
        }
        assert s.firstDown == t.firstDown;
        if row.nextDown != Num(1) && row.nextDown != TD && row.nextDown != TO {
          s := s.(nextDown := s.nextDown + 1);
        }
        assert s.nextDown == t.nextDown;
        if row.isTouchdown {
          s := s.(touchdown := s.touchdown + 1);
        }
        assert s.touchdown == t.touchdown;
        if row.isTurnover {
          s := s.(turnover := s.turnover + 1);
        }
        assert s.turnover == t.turnover;
        if row.isNegativePlay {
          s := s.(negativePlay := s.negativePlay + 1);
        }
        assert s.negativePlay == t.negativePlay;
        s := s.(totalPlays := s.totalPlays + 1);
        assert s == t;
      }
    }
    assert rows[..|rows|] == rows;
  }

  /** MDP.calculate for one play type: count each listed formation, then
      divide by its total. */
  method Tabulate(rows: seq<PlayRecord>, pt: PlayType, formations: seq<string>) returns (table: seq<FormationRow>)
    requires ListsFormations(formations, rows, pt)
    ensures Describes(table, rows, pt, formations)
    ensures forall j :: 0 <= j < |table| ==>
              ProbsInUnit(table[j].probs) && table[j].probs.firstDown + table[j].probs.nextDown <= 1.0
  {
    table := [];
    for j := 0 to |formations|
      invariant Describes(table, rows, pt, formations[..j])
      invariant forall k :: 0 <= k < |table| ==>
                  ProbsInUnit(table[k].probs) && table[k].probs.firstDown + table[k].probs.nextDown <= 1.0
    {
      var each := formations[j];
      var s := CountPlays(rows, pt, each);
      CountBounded(rows, pt, each);
      ProbabilitiesBounded(s);
      table := table + [FormationRow(each, s, Probabilities(s))];
    }
    assert formations[..|formations|] == formations;
  }

  // ---------------------------------------------------------------------
  // Decision

  /** An action description such as "Rush to first down". */
  datatype Move = Move(playType: PlayType, outcome: Outcome)

  function Description(m: Move): string {
    (if m.playType == Rush then "Rush to " else "Pass to ")
    + match m.outcome
      case FirstDown => "first down"
      case NextDown => "next down"
      case Touchdown => "touchdown"
      case Turnover => "turnover"
      case NegativePlay => "negative play"
  }

  /** One entry of the decision list: action, formation and value. */
  datatype Candidate = Candidate(move: Move, formation: string, value: real)

  const Discount: real := 0.4

  /** The value of the state after the play: the model looks one play ahead. */
  const V0: real := 0.0

  /** The order in which each formation's five entries are listed. */
  const OutcomeOrder: seq<Outcome> := [FirstDown, NextDown, Touchdown, Turnover, NegativePlay]

  function Prob(p: Probs, o: Outcome): real {
    match o
    case FirstDown => p.firstDown
    case NextDown => p.nextDown
    case Touchdown => p.touchdown
    case Turnover => p.turnover
    case NegativePlay => p.negativePlay
  }

  function Reward(rw: Rewards, o: Outcome): real {
    match o
    case FirstDown => rw.firstDown
    case NextDown => rw.nextDown
    case Touchdown => rw.touchdown
    case Turnover => rw.turnover
    case NegativePlay => rw.negPlay
  }

  /** The entry for outcome o of a formation: with V0 = 0 its value is the
      outcome's probability times the outcome's reward. */
  function Entry(rw: Rewards, pt: PlayType, row: FormationRow, o: Outcome): (c: Candidate)
    ensures c.move == Move(pt, o) && c.formation == row.formation
    ensures c.value == Prob(row.probs, o) * Reward(rw, o)
  {
    Candidate(Move(pt, o), row.formation, Prob(row.probs, o) * (Reward(rw, o) + Discount * V0))
  }

  /** The five entries one formation contributes. */
  function RowCandidates(rw: Rewards, pt: PlayType, row: FormationRow): seq<Candidate> {
    [Entry(rw, pt, row, FirstDown), Entry(rw, pt, row, NextDown), Entry(rw, pt, row, Touchdown),
     Entry(rw, pt, row, Turnover), Entry(rw, pt, row, NegativePlay)]
  }

  function TableCandidates(rw: Rewards, pt: PlayType, table: seq<FormationRow>): (c: seq<Candidate>)
    ensures |c| == 5 * |table|
  {
    if table == [] then []
    else TableCandidates(rw, pt, table[..|table| - 1]) + RowCandidates(rw, pt, table[|table| - 1])
  }

  /** The whole decision list: rush entries before pass entries. */
  function Candidates(rw: Rewards, rush: seq<FormationRow>, pass: seq<FormationRow>): seq<Candidate> {
    TableCandidates(rw, Rush, rush) + TableCandidates(rw, Pass, pass)
  }

  function Values(c: seq<Candidate>): (v: seq<real>)
    ensures |v| == |c| && forall i :: 0 <= i < |c| ==> v[i] == c[i].value
  {
    seq(|c|, i requires 0 <= i < |c| => c[i].value)
  }

  /** Entry k of formation j is its outcome k's probability times that
      outcome's reward: with V0 = 0 the discounted term vanishes. */
  lemma {:induction false} CandidateAt(rw: Rewards, pt: PlayType, table: seq<FormationRow>, j: nat, k: nat)
    requires j < |table| && k < 5
    ensures TableCandidates(rw, pt, table)[5 * j + k] == Entry(rw, pt, table[j], OutcomeOrder[k])
  {
    var n := |table|;
    var prefix := TableCandidates(rw, pt, table[..n - 1]);
    var last := RowCandidates(rw, pt, table[n - 1]);
    assert TableCandidates(rw, pt, table) == prefix + last;
    assert |prefix| == 5 * (n - 1);
    if j < n - 1 {
      CandidateAt(rw, pt, table[..n - 1], j, k);
      assert table[..n - 1][j] == table[j];
      assert (prefix + last)[5 * j + k] == prefix[5 * j + k];
    } else {
      assert (prefix + last)[5 * j + k] == last[k];
      var o := OutcomeOrder[k];
      assert last[k] == Entry(rw, pt, table[j], o) by {
        if k == 0 { } else if k == 1 { } else if k == 2 { } else if k == 3 { } else { }
      }
    }
  }

  /** The touchdown reward dominates the rewards of the other outcomes. */
  predicate TouchdownBest(rw: Rewards) {
    rw.touchdown > 0.0
    && rw.touchdown > rw.firstDown && rw.touchdown > rw.nextDown
    && rw.touchdown > rw.turnover && rw.touchdown > rw.negPlay
  }

  lemma EntryAtMostTouchdown(rw: Rewards, pt: PlayType, row: FormationRow, o: Outcome)
    requires TouchdownBest(rw) && ProbsInUnit(row.probs)
    ensures Entry(rw, pt, row, o).value <= rw.touchdown
  {
    var p, r := Prob(row.probs, o), Reward(rw, o);
    assert InUnit(p);
    if r > 0.0 {
      assert (1.0 - p) * r >= 0.0;
      assert p * r <= r;
    } else {
      assert p * r <= 0.0;
    }
  }

  /** Under such a reward vector no entry is worth more than a certain touchdown. */
  lemma {:induction false} CandidatesAtMostTouchdown(rw: Rewards, pt: PlayType, table: seq<FormationRow>)
    requires TouchdownBest(rw)
    requires forall j :: 0 <= j < |table| ==> ProbsInUnit(table[j].probs)
    ensures forall i :: 0 <= i < |TableCandidates(rw, pt, table)| ==> TableCandidates(rw, pt, table)[i].value <= rw.touchdown
  {
    if table != [] {
      var row := table[|table| - 1];
      CandidatesAtMostTouchdown(rw, pt, table[..|table| - 1]);
      EntryAtMostTouchdown(rw, pt, row, FirstDown);
      EntryAtMostTouchdown(rw, pt, row, NextDown);
      EntryAtMostTouchdown(rw, pt, row, Touchdown);
      EntryAtMostTouchdown(rw, pt, row, Turnover);
      EntryAtMostTouchdown(rw, pt, row, NegativePlay);
    }
  }

  /** A formation whose plays all score, listed first among the rush
      formations, is chosen as a rush to a touchdown worth the touchdown reward
      when that reward is positive and above every other reward. */
  lemma TouchdownCertainRushWins(rw: Rewards, rush: seq<FormationRow>, pass: seq<FormationRow>)
    requires |rush| > 0 && rush[0].probs == Probs(0.0, 0.0, 1.0, 0.0, 0.0)
    requires forall j :: 0 <= j < |rush| ==> ProbsInUnit(rush[j].probs)
    requires forall j :: 0 <= j < |pass| ==> ProbsInUnit(pass[j].probs)
    requires TouchdownBest(rw)
    ensures var c := Candidates(rw, rush, pass);
            var best := c[FirstMax(Values(c))];
            best.move == Move(Rush, Touchdown) && best.formation == rush[0].formation
            && best.value == rw.touchdown
  {
    var rc := TableCandidates(rw, Rush, rush);
    var c := Candidates(rw, rush, pass);
    var v := Values(c);
    CandidatesAtMostTouchdown(rw, Rush, rush);
    CandidatesAtMostTouchdown(rw, Pass, pass);
    forall i | 0 <= i < |c| ensures v[i] <= rw.touchdown {
      if i >= |rc| {
        assert c[i] == TableCandidates(rw, Pass, pass)[i - |rc|];
      }
    }
    CandidateAt(rw, Rush, rush, 0, 0);
    CandidateAt(rw, Rush, rush, 0, 1);
    CandidateAt(rw, Rush, rush, 0, 2);
    assert v[0] == 0.0 && v[1] == 0.0 && v[2] == rw.touchdown;
    var m := FirstMax(v);
    assert m == 2;
  }

  /** The running maximum at the end of MDP.decision: the first entry of
      largest value; None for an empty list, on which the source fails. */
  method RunningMax(values: seq<Candidate>) returns (best: Option<Candidate>)
    ensures best.None? <==> values == []
    ensures best.Some? ==> best.value == values[FirstMax(Values(values))]
    ensures best.Some? ==> exists k :: 0 <= k < |values| && values[k] == best.value
                             && (forall i :: 0 <= i < k ==> values[i].value < best.value.value)
                             && (forall i :: 0 <= i < |values| ==> values[i].value <= best.value.value)
  {
    if |values| == 0 {
      return None;
    }
    ghost var v := Values(values);
    var maxVal := values[0].value;
    var maxList := values[0];
    for i := 1 to |values|
      invariant maxList == values[FirstMax(v[..i])] && maxVal == maxList.value
    {
      assert v[..i + 1][..i] == v[..i];
      if values[i].value > maxVal {
        maxVal := values[i].value;
        maxList := values[i];
      }
    }
    assert v[..|values|] == v;
    best := Some(maxList);
  }

  /** The MDP of one situation: its data, its reward vector and the rush and
      pass tables computed from them. */
  class MDP {
    const data: seq<PlayRecord>
    const rewards: Rewards
    const rushFormations: seq<string>
    const passFormations: seq<string>
    var rushPlays: seq<FormationRow>
    var passPlays: seq<FormationRow>

    ghost predicate Valid()
      reads this
    {
      Describes(rushPlays, data, Rush, rushFormations)
      && Describes(passPlays, data, Pass, passFormations)
    }

    /** The formation lists are those of the data in the order the quarter
        sort leaves them. */
    constructor (reward: seq<real>, data: seq<PlayRecord>, rushFormations: seq<string>, passFormations: seq<string>)
      requires |reward| >= 5
      requires ListsFormations(rushFormations, data, Rush)
      requires ListsFormations(passFormations, data, Pass)
      ensures this.data == data && rewards == RewardsOf(reward)
      ensures this.rushFormations == rushFormations && this.passFormations == passFormations
      ensures Valid()
    {
      this.data := data;
      rewards := RewardsOf(reward);
      this.rushFormations := rushFormations;
      this.passFormations := passFormations;
      new;
      Calculate();
    }

    method Calculate()
      requires ListsFormations(rushFormations, data, Rush)
      requires ListsFormations(passFormations, data, Pass)
      modifies this
      ensures Valid()
    {
      rushPlays := Tabulate(data, Rush, rushFormations);
      passPlays := Tabulate(data, Pass, passFormations);
    }

    /** The entry of largest value, the earliest one on ties; None when the
        situation has no plays (the source fails on an empty list). */
    method Decision() returns (best: Option<Candidate>)
      ensures var c := Candidates(rewards, rushPlays, passPlays);
              (best.None? <==> c == [])
              && (best.Some? ==> best.value == c[FirstMax(Values(c))])
      ensures var c := Candidates(rewards, rushPlays, passPlays);
              best.Some? ==> forall i :: 0 <= i < |c| ==> c[i].value <= best.value.value
    {
      var values: seq<Candidate> := [];
      for i := 0 to |rushPlays|
        invariant values == TableCandidates(rewards, Rush, rushPlays[..i])
      {
        assert rushPlays[..i + 1][..i] == rushPlays[..i];
        values := values + RowCandidates(rewards, Rush, rushPlays[i]);
      }
      assert rushPlays[..|rushPlays|] == rushPlays;
      for i := 0 to |passPlays|
        invariant values == TableCandidates(rewards, Rush, rushPlays) + TableCandidates(rewards, Pass, passPlays[..i])
      {
        assert passPlays[..i + 1][..i] == passPlays[..i];
        values := values + RowCandidates(rewards, Pass, passPlays[i]);
      }
      assert passPlays[..|passPlays|] == passPlays;
      best := RunningMax(values);
    }
  }
}
