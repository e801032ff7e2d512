/** The hidden Markov model drive generator: play types are the hidden
    states, play results the observations. Counts are estimated from the
    situational plays in game order; drives are then sampled step by step. */
module Hmm {
  import opened Util
  import opened Plays

  /** One value per play type: the RUSH and PASS rows of a table. */
  datatype ByType<T> = ByType(rush: T, pass: T) {
    function Get(pt: PlayType): T {
      if pt == Rush then rush else pass
    }
  }

  /** A row of the hidden-state table: the four transition columns and the total. */
  datatype TransitionCounts = TransitionCounts(passPass: nat, passRush: nat, rushPass: nat, rushRush: nat, totalPlays: nat)

  /** A row of the observation table: the five outcome columns and the total. */
  datatype EmissionCounts = EmissionCounts(firstDown: nat, nextDown: nat, touchdown: nat, turnover: nat, negativePlay: nat, totalPlays: nat)

  datatype TransitionProbs = TransitionProbs(passPass: real, passRush: real, rushPass: real, rushRush: real)

  datatype EmissionProbs = EmissionProbs(firstDown: real, nextDown: real, touchdown: real, turnover: real, negativePlay: real)

  const NoTransitions := TransitionCounts(0, 0, 0, 0, 0)
  const NoEmissions := EmissionCounts(0, 0, 0, 0, 0, 0)

  // ---------------------------------------------------------------------
  // Estimation

  /** The column counting transitions from one play type to another: it sits
      in the row of the second play type. */
  function TransitionCount(h: ByType<TransitionCounts>, from: PlayType, to: PlayType): nat {
    match (from, to)
    case (Pass, Pass) => h.pass.passPass
    case (Rush, Pass) => h.pass.rushPass
    case (Pass, Rush) => h.rush.passRush
    case (Rush, Rush) => h.rush.rushRush
  }

  /** A transition from prev to cur is counted in the row of cur. */
  function AddTransition(h: ByType<TransitionCounts>, prev: PlayType, cur: PlayType): (a: ByType<TransitionCounts>)
    ensures a.Get(cur).totalPlays == h.Get(cur).totalPlays + 1
    ensures cur == Pass ==> a.rush == h.rush
    ensures cur == Rush ==> a.pass == h.pass
    ensures a.pass.passPass == h.pass.passPass + (if prev == Pass && cur == Pass then 1 else 0)
    ensures a.pass.rushPass == h.pass.rushPass + (if prev == Rush && cur == Pass then 1 else 0)
    ensures a.rush.passRush == h.rush.passRush + (if prev == Pass && cur == Rush then 1 else 0)
    ensures a.rush.rushRush == h.rush.rushRush + (if prev == Rush && cur == Rush then 1 else 0)
    ensures a.pass.passRush == h.pass.passRush && a.pass.rushRush == h.pass.rushRush
    ensures a.rush.passPass == h.rush.passPass && a.rush.rushPass == h.rush.rushPass
  {
    if cur == Pass then
      var row := if prev == Pass then h.pass.(passPass := h.pass.passPass + 1) else h.pass.(rushPass := h.pass.rushPass + 1);
      h.(pass := row.(totalPlays := row.totalPlays + 1))
    else
      var row := if prev == Pass then h.rush.(passRush := h.rush.passRush + 1) else h.rush.(rushRush := h.rush.rushRush + 1);
      h.(rush := row.(totalPlays := row.totalPlays + 1))
  }

  /** The transition counts of consecutive plays. */
  function Transitions(rows: seq<PlayRecord>): (t: ByType<TransitionCounts>)
    ensures t.rush.totalPlays + t.pass.totalPlays == if |rows| <= 1 then 0 else |rows| - 1
  {
    if |rows| <= 1 then ByType(NoTransitions, NoTransitions)
    else AddTransition(Transitions(rows[..|rows| - 1]), rows[|rows| - 2].playType, rows[|rows| - 1].playType)
  }

  /** The observation bucket of a play: the first test that holds wins; a play
      that passes none is counted in the total only. */
  function ObservedOutcome(r: PlayRecord): (o: Option<Outcome>)
    ensures o == Some(FirstDown) <==> r.nextDown == Num(1)
    ensures o == Some(NextDown) <==> r.nextDown.Num? && r.nextDown != Num(1)
    ensures o == Some(Touchdown) <==> (r.nextDown == TD || r.nextDown == TO) && r.isTouchdown
    ensures o.Some? && (o.value == Turnover || o.value == NegativePlay) ==> (r.nextDown == TD || r.nextDown == TO) && !r.isTouchdown
    ensures o == Some(Turnover) <==> (r.nextDown == TD || r.nextDown == TO) && !r.isTouchdown && r.isTurnover
    ensures o == Some(NegativePlay) <==> (r.nextDown == TD || r.nextDown == TO) && !r.isTouchdown && !r.isTurnover && r.isNegativePlay
    ensures o.None? <==> (r.nextDown == TD || r.nextDown == TO) && !r.isTouchdown && !r.isTurnover && !r.isNegativePlay
  {
    if r.nextDown == Num(1) then Some(FirstDown)
    else if r.nextDown != Num(1) && r.nextDown != TD && r.nextDown != TO then Some(NextDown)
    else if r.isTouchdown then Some(Touchdown)
    else if r.isTurnover then Some(Turnover)
    else if r.isNegativePlay then Some(NegativePlay)
    else None
  }

  /** A play with observation o adds one to o's column, if it has one, and
      one to the total. */
  function AddEmission(e: EmissionCounts, o: Option<Outcome>): (a: EmissionCounts)
    ensures a.totalPlays == e.totalPlays + 1
    ensures forall o' :: EmissionCount(a, o') == EmissionCount(e, o') + (if o == Some(o') then 1 else 0)
    ensures EmissionsBounded(e) ==> EmissionsBounded(a)
  {
    var e := match o
      case None => e
      case Some(FirstDown) => e.(firstDown := e.firstDown + 1)
      case Some(NextDown) => e.(nextDown := e.nextDown + 1)
      case Some(Touchdown) => e.(touchdown := e.touchdown + 1)
      case Some(Turnover) => e.(turnover := e.turnover + 1)
      case Some(NegativePlay) => e.(negativePlay := e.negativePlay + 1);
    e.(totalPlays := e.totalPlays + 1)
  }

  /** The observation counts of every play, in the row of its play type. */
  function Emissions(rows: seq<PlayRecord>): (e: ByType<EmissionCounts>)
    ensures e.rush.totalPlays + e.pass.totalPlays == |rows|
  {
    if rows == [] then ByType(NoEmissions, NoEmissions)
    else
      var h := Emissions(rows[..|rows| - 1]);
      var r := rows[|rows| - 1];
      if r.playType == Rush then h.(rush := AddEmission(h.rush, ObservedOutcome(r)))
      else h.(pass := AddEmission(h.pass, ObservedOutcome(r)))
  }

  /** Each transition lands in the row of its second play: the PASS row only
      has Pass-Pass and Rush-Pass entries, the RUSH row only Pass-Rush and
      Rush-Rush entries, and the totals add up to the number of transitions. */
  lemma {:induction false} TransitionShape(rows: seq<PlayRecord>)
    ensures var h := Transitions(rows);
            h.pass.passRush == 0 && h.pass.rushRush == 0 && h.pass.passPass + h.pass.rushPass == h.pass.totalPlays
            && h.rush.passPass == 0 && h.rush.rushPass == 0 && h.rush.passRush + h.rush.rushRush == h.rush.totalPlays
            && h.rush.totalPlays + h.pass.totalPlays == (if |rows| <= 1 then 0 else |rows| - 1)
  {
    if |rows| > 1 {
      TransitionShape(rows[..|rows| - 1]);
    }
  }

  /** A row of the transition table has a positive total exactly when some
      play after the first has that play type. */
  lemma {:induction false} TransitionTotal(rows: seq<PlayRecord>, pt: PlayType)
    ensures Transitions(rows).Get(pt).totalPlays > 0 <==> exists i :: 1 <= i < |rows| && rows[i].playType == pt
  {
    if |rows| > 1 {
      var prefix := rows[..|rows| - 1];
      TransitionTotal(prefix, pt);
      if exists i :: 1 <= i < |prefix| && prefix[i].playType == pt {
        var i :| 1 <= i < |prefix| && prefix[i].playType == pt;
        assert rows[i] == prefix[i];
      }
      if exists i :: 1 <= i < |rows| && rows[i].playType == pt {
        var i :| 1 <= i < |rows| && rows[i].playType == pt;
        if i < |prefix| { assert prefix[i] == rows[i]; }
      }
    }
  }

  /** Play i follows a play of type from and is itself of type to. */
  predicate Follows(rows: seq<PlayRecord>, i: int, from: PlayType, to: PlayType) {
    1 <= i < |rows| && rows[i - 1].playType == from && rows[i].playType == to
  }

  /** Every transition column counts exactly the consecutive pairs of plays
      with that first and second play type. */
  lemma TransitionColumns(rows: seq<PlayRecord>, from: PlayType, to: PlayType)
    ensures TransitionCount(Transitions(rows), from, to)
         == |set i | 1 <= i < |rows| && Follows(rows, i, from, to)|
  {
    assert rows[..|rows|] == rows;
    TransitionPrefixColumns(rows, |rows|, from, to);
  }

  lemma {:induction false} TransitionPrefixColumns(rows: seq<PlayRecord>, k: nat, from: PlayType, to: PlayType)
    requires k <= |rows|
    ensures TransitionCount(Transitions(rows[..k]), from, to)
         == |set i | 1 <= i < k && Follows(rows, i, from, to)|
  {
    if k <= 1 {
      assert (set i | 1 <= i < k && Follows(rows, i, from, to)) == {};
    } else {
      TransitionStep(rows, k, from, to);
      TransitionPrefixColumns(rows, k - 1, from, to);
      TransitionSnoc(rows, k, from, to);
    }
  }

  /** The last pair of a prefix adds one to its own column. */
  lemma TransitionStep(rows: seq<PlayRecord>, k: nat, from: PlayType, to: PlayType)
    requires 1 < k <= |rows|
    ensures TransitionCount(Transitions(rows[..k]), from, to)
         == TransitionCount(Transitions(rows[..k - 1]), from, to) + (if Follows(rows, k - 1, from, to) then 1 else 0)
  {
    assert rows[..k][..k - 1] == rows[..k - 1];
    assert Transitions(rows[..k]) == AddTransition(Transitions(rows[..k - 1]), rows[k - 2].playType, rows[k - 1].playType);
  }

  /** The consecutive pairs, one play at a time from the back. */
  lemma TransitionSnoc(rows: seq<PlayRecord>, k: nat, from: PlayType, to: PlayType)
    requires 1 < k <= |rows|
    ensures |set i | 1 <= i < k && Follows(rows, i, from, to)|
         == |set i | 1 <= i < k - 1 && Follows(rows, i, from, to)|
            + (if Follows(rows, k - 1, from, to) then 1 else 0)
  {
    var before := set i | 1 <= i < k - 1 && Follows(rows, i, from, to);
    var after := set i | 1 <= i < k && Follows(rows, i, from, to);
    if Follows(rows, k - 1, from, to) {
      assert after == before + {k - 1};
    } else {
      assert after == before;
    }
  }

  /** Every observation column of a play type's row counts exactly the plays
      of that type whose observation is that column. */
  lemma EmissionColumns(rows: seq<PlayRecord>, pt: PlayType, o: Outcome)
    ensures EmissionCount(Emissions(rows).Get(pt), o)
         == |set i | 0 <= i < |rows| && rows[i].playType == pt && ObservedOutcome(rows[i]) == Some(o)|
  {
    assert rows[..|rows|] == rows;
    EmissionPrefixColumns(rows, |rows|, pt, o);
  }

  lemma {:induction false} EmissionPrefixColumns(rows: seq<PlayRecord>, k: nat, pt: PlayType, o: Outcome)
    requires k <= |rows|
    ensures EmissionCount(Emissions(rows[..k]).Get(pt), o)
         == |set i | 0 <= i < k && rows[i].playType == pt && ObservedOutcome(rows[i]) == Some(o)|
  {
    if k > 0 {
      EmissionStep(rows, k, pt, o);
      EmissionPrefixColumns(rows, k - 1, pt, o);
      EmissionSnoc(rows, k, pt, o);
    }
  }

  /** The last play of a prefix adds one to its own column of its own row. */
  lemma EmissionStep(rows: seq<PlayRecord>, k: nat, pt: PlayType, o: Outcome)
    requires 0 < k <= |rows|
    ensures EmissionCount(Emissions(rows[..k]).Get(pt), o)
         == EmissionCount(Emissions(rows[..k - 1]).Get(pt), o)
            + (if rows[k - 1].playType == pt && ObservedOutcome(rows[k - 1]) == Some(o) then 1 else 0)
  {
    assert rows[..k][..k - 1] == rows[..k - 1];
    assert rows[..k][k - 1] == rows[k - 1];
  }

  /** The plays an observation column counts, one play at a time from the back. */
  lemma EmissionSnoc(rows: seq<PlayRecord>, k: nat, pt: PlayType, o: Outcome)
    requires 0 < k <= |rows|
    ensures |set i | 0 <= i < k && rows[i].playType == pt && ObservedOutcome(rows[i]) == Some(o)|
         == |set i | 0 <= i < k - 1 && rows[i].playType == pt && ObservedOutcome(rows[i]) == Some(o)|
            + (if rows[k - 1].playType == pt && ObservedOutcome(rows[k - 1]) == Some(o) then 1 else 0)
  {
    var before := set i | 0 <= i < k - 1 && rows[i].playType == pt && ObservedOutcome(rows[i]) == Some(o);
    var after := set i | 0 <= i < k && rows[i].playType == pt && ObservedOutcome(rows[i]) == Some(o);
    if rows[k - 1].playType == pt && ObservedOutcome(rows[k - 1]) == Some(o) {
      assert after == before + {k - 1};
    } else {
      assert after == before;
    }
  }

  /** No play is counted in more than one observation column. */
  predicate EmissionsBounded(e: EmissionCounts) {
    e.firstDown + e.nextDown + e.touchdown + e.turnover + e.negativePlay <= e.totalPlays
  }

  /** Every play is in exactly one of FirstDown, NextDown and Touchdown. */
  predicate EmissionsPartitioned(e: EmissionCounts) {
    e.firstDown + e.nextDown + e.touchdown == e.totalPlays && e.turnover == 0 && e.negativePlay == 0
  }

  /** A derived play always has an observation, and it is never Turnover or
      NegativePlay: the first two tests already cover every label but TD. */
  lemma ObservedOutcomeOfWellFormed(r: PlayRecord)
    requires WellFormed(r)
    ensures ObservedOutcome(r).Some?
    ensures ObservedOutcome(r).value in {FirstDown, NextDown, Touchdown}
    ensures ObservedOutcome(r) == Some(Touchdown) <==> r.isTouchdown
  {
  }

  lemma AddEmissionKeeps(e: EmissionCounts, r: PlayRecord)
    ensures EmissionsPartitioned(e) && WellFormed(r) ==> EmissionsPartitioned(AddEmission(e, ObservedOutcome(r)))
  {
  }

  /** No play is counted in more than one observation column. */
  lemma {:induction false} EmissionBounds(rows: seq<PlayRecord>)
    ensures EmissionsBounded(Emissions(rows).rush) && EmissionsBounded(Emissions(rows).pass)
  {
    if rows != [] {
      EmissionBounds(rows[..|rows| - 1]);
    }
  }

  /** On derived plays every play lands in exactly one of FirstDown, NextDown
      and Touchdown, so Turnover and NegativePlay stay 0. */
  lemma {:induction false} EmissionPartition(rows: seq<PlayRecord>)
    requires forall i :: 0 <= i < |rows| ==> WellFormed(rows[i])
    ensures EmissionsPartitioned(Emissions(rows).rush) && EmissionsPartitioned(Emissions(rows).pass)
  {
    if rows != [] {
      var prefix := rows[..|rows| - 1];
      var r := rows[|rows| - 1];
      assert forall i :: 0 <= i < |prefix| ==> WellFormed(prefix[i]) by {
        forall i | 0 <= i < |prefix| ensures WellFormed(prefix[i]) {
          assert prefix[i] == rows[i];
        }
      }
      EmissionPartition(prefix);
      AddEmissionKeeps(Emissions(prefix).rush, r);
      AddEmissionKeeps(Emissions(prefix).pass, r);
    }
  }

  /** A row of the observation table has a positive total exactly when some
      play has that play type. */
  lemma {:induction false} EmissionTotal(rows: seq<PlayRecord>, pt: PlayType)
    ensures Emissions(rows).Get(pt).totalPlays > 0 <==> exists i :: 0 <= i < |rows| && rows[i].playType == pt
  {
    if rows != [] {
      var prefix := rows[..|rows| - 1];
      EmissionTotal(prefix, pt);
      if exists i :: 0 <= i < |prefix| && prefix[i].playType == pt {
        var i :| 0 <= i < |prefix| && prefix[i].playType == pt;
        assert rows[i] == prefix[i];
      }
      if exists i :: 0 <= i < |rows| && rows[i].playType == pt {
        var i :| 0 <= i < |rows| && rows[i].playType == pt;
        if i < |prefix| { assert prefix[i] == rows[i]; }
      }
    }
  }

  predicate NonNegativeRow(p: TransitionProbs) {
    0.0 <= p.passPass && 0.0 <= p.passRush && 0.0 <= p.rushPass && 0.0 <= p.rushRush
  }

  function EmissionCount(c: EmissionCounts, o: Outcome): nat {
    match o
    case FirstDown => c.firstDown
    case NextDown => c.nextDown
    case Touchdown => c.touchdown
    case Turnover => c.turnover
    case NegativePlay => c.negativePlay
  }

  /** A row of transition counts divided by its total: every entry is
      nonnegative and is 0 exactly when its count is. */
  function NormalizeTransitions(c: TransitionCounts): (p: TransitionProbs)
    requires c.totalPlays > 0
    ensures NonNegativeRow(p)
    ensures (p.passPass == 0.0 <==> c.passPass == 0) && (p.passRush == 0.0 <==> c.passRush == 0)
    ensures (p.rushPass == 0.0 <==> c.rushPass == 0) && (p.rushRush == 0.0 <==> c.rushRush == 0)
  {
    var n := c.totalPlays as real;
    TransitionProbs(c.passPass as real / n, c.passRush as real / n, c.rushPass as real / n, c.rushRush as real / n)
  }

  /** A row of observation counts divided by its total: every entry is
      nonnegative and is 0 exactly when its count is. */
  function NormalizeEmissions(c: EmissionCounts): (p: EmissionProbs)
    requires c.totalPlays > 0
    ensures NonNegative(EmissionSeq(p))
    ensures forall o: Outcome :: EmissionProb(p, o) == 0.0 <==> EmissionCount(c, o) == 0
  {
    var n := c.totalPlays as real;
    EmissionProbs(c.firstDown as real / n, c.nextDown as real / n, c.touchdown as real / n,
                  c.turnover as real / n, c.negativePlay as real / n)
  }

  /** Both play types occur after the first play, so no row divides by zero. */
  ghost predicate BothTypesFollow(rows: seq<PlayRecord>) {
    (exists i :: 1 <= i < |rows| && rows[i].playType == Rush)
    && (exists i :: 1 <= i < |rows| && rows[i].playType == Pass)
  }

  function EstimatedTransitions(rows: seq<PlayRecord>): ByType<TransitionProbs>
    requires BothTypesFollow(rows)
  {
    TransitionTotal(rows, Rush);
    TransitionTotal(rows, Pass);
    ByType(NormalizeTransitions(Transitions(rows).rush), NormalizeTransitions(Transitions(rows).pass))
  }

  function EstimatedEmissions(rows: seq<PlayRecord>): ByType<EmissionProbs>
    requires BothTypesFollow(rows)
  {
    EmissionTotal(rows, Rush);
    EmissionTotal(rows, Pass);
    ByType(NormalizeEmissions(Emissions(rows).rush), NormalizeEmissions(Emissions(rows).pass))
  }

  // ---------------------------------------------------------------------
  // Probability rows

  predicate NonNegativeTransitions(h: ByType<TransitionProbs>) {
    NonNegativeRow(h.rush) && NonNegativeRow(h.pass)
  }

  /** Leaving the play type of a row is never recorded in that row. */
  predicate OffColumnsZero(h: ByType<TransitionProbs>) {
    h.rush.rushPass == 0.0 && h.pass.passRush == 0.0
  }

  function EmissionSeq(e: EmissionProbs): seq<real> {
    [e.firstDown, e.nextDown, e.touchdown, e.turnover, e.negativePlay]
  }

  predicate Stochastic(e: EmissionProbs) {
    NonNegative(EmissionSeq(e))
    && e.firstDown + e.nextDown + e.touchdown + e.turnover + e.negativePlay == 1.0
  }

  /** The estimated hidden-state table: the PASS row is split between
      Pass-Pass and Rush-Pass and the RUSH row between Pass-Rush and Rush-Rush,
      each summing to 1. */
  lemma EstimatedTransitionRows(rows: seq<PlayRecord>)
    requires BothTypesFollow(rows)
    ensures var h := EstimatedTransitions(rows);
            NonNegativeTransitions(h) && OffColumnsZero(h)
            && h.pass.passPass + h.pass.rushPass == 1.0 && h.pass.rushRush == 0.0
            && h.rush.passRush + h.rush.rushRush == 1.0 && h.rush.passPass == 0.0
  {
    TransitionShape(rows);
    TransitionTotal(rows, Rush);
    TransitionTotal(rows, Pass);
    var t := Transitions(rows);
    TransitionRowSums(t.pass.passPass, t.pass.rushPass, t.pass.totalPlays);
    TransitionRowSums(t.rush.passRush, t.rush.rushRush, t.rush.totalPlays);
  }

  lemma TransitionRowSums(a: nat, b: nat, n: nat)
    requires n > 0 && a + b == n
    ensures a as real / n as real + b as real / n as real == 1.0
  {
    RatioSum(a as real, b as real, n as real);
    assert (a + b) as real / n as real == 1.0;
  }

  /** On derived plays each estimated observation row is a distribution with
      no weight on Turnover or NegativePlay. */
  lemma EstimatedEmissionRows(rows: seq<PlayRecord>)
    requires BothTypesFollow(rows)
    requires forall i :: 0 <= i < |rows| ==> WellFormed(rows[i])
    ensures var e := EstimatedEmissions(rows);
            Stochastic(e.rush) && Stochastic(e.pass)
            && e.rush.turnover == 0.0 && e.rush.negativePlay == 0.0
            && e.pass.turnover == 0.0 && e.pass.negativePlay == 0.0
  {
    var c := Emissions(rows);
    EmissionPartition(rows);
    EmissionTotal(rows, Rush);
    EmissionTotal(rows, Pass);
    EmissionRowSums(c.rush);
    EmissionRowSums(c.pass);
  }

  lemma EmissionRowSums(c: EmissionCounts)
    requires c.totalPlays > 0 && c.turnover == 0 && c.negativePlay == 0
    requires c.firstDown + c.nextDown + c.touchdown == c.totalPlays
    ensures Stochastic(NormalizeEmissions(c))
    ensures NormalizeEmissions(c).turnover == 0.0 && NormalizeEmissions(c).negativePlay == 0.0
  {
    var p := NormalizeEmissions(c);
    assert EmissionCount(c, Turnover) == 0 && EmissionCount(c, NegativePlay) == 0;
    assert EmissionProb(p, Turnover) == 0.0 && EmissionProb(p, NegativePlay) == 0.0;
    var n := c.totalPlays as real;
    RatioSum(c.firstDown as real, c.nextDown as real, n);
    RatioSum((c.firstDown + c.nextDown) as real, c.touchdown as real, n);
    assert n / n == 1.0;
  }

  // ---------------------------------------------------------------------
  // Sampling

  /** The hidden states and observations in the order numpy draws from them. */
  const HiddenStates: seq<PlayType> := [Rush, Pass]
  const ObservedStates: seq<Outcome> := [FirstDown, NextDown, Touchdown, Turnover, NegativePlay]

  function EmissionProb(e: EmissionProbs, o: Outcome): real {
    match o
    case FirstDown => e.firstDown
    case NextDown => e.nextDown
    case Touchdown => e.touchdown
    case Turnover => e.turnover
    case NegativePlay => e.negativePlay
  }

  /** One observation drawn with the uniform x from distribution e. */
  function DrawOutcome(e: EmissionProbs, x: real): (o: Outcome)
    requires Stochastic(e) && 0.0 <= x < 1.0
    ensures EmissionProb(e, o) > 0.0
  {
    var p := EmissionSeq(e);
    assert Sum(p) == 1.0 by {
      assert Sum(p[4..]) == p[4] by { assert p[4..][1..] == []; }
      assert Sum(p[3..]) == p[3] + p[4] by { assert p[3..][1..] == p[4..]; }
      assert Sum(p[2..]) == p[2] + p[3] + p[4] by { assert p[2..][1..] == p[3..]; }
      assert Sum(p[1..]) == p[1] + p[2] + p[3] + p[4] by { assert p[1..][1..] == p[2..]; }
    }
    var k := Pick(p, x);
    assert p[k] == EmissionProb(e, ObservedStates[k]) by {
      if k == 0 { } else if k == 1 { } else if k == 2 { } else if k == 3 { } else { }
    }
    ObservedStates[k]
  }

  /** The unnormalised weight of moving from one hidden state to another, as
      generate_drive reads it from the row of the current state. */
  function Weight(h: ByType<TransitionProbs>, from: PlayType, to: PlayType): (w: real)
    ensures NonNegativeTransitions(h) ==> 0.0 <= w
    ensures OffColumnsZero(h) && from != to ==> w == 0.0
  {
    assert from != to ==> (from == Rush <==> to == Pass);
    if from == Rush then (if to == Rush then h.rush.rushRush else h.rush.rushPass)
    else (if to == Rush then h.pass.passRush else h.pass.passPass)
  }

  /** Renormalising two nonnegative weights with a positive sum gives a
      distribution that keeps exactly the positive weights positive. */
  lemma SplitTwo(a: real, b: real)
    requires 0.0 <= a && 0.0 <= b && a + b > 0.0
    ensures a / (a + b) + b / (a + b) == 1.0
    ensures 0.0 <= a / (a + b) && 0.0 <= b / (a + b)
    ensures a / (a + b) > 0.0 ==> a > 0.0
    ensures b / (a + b) > 0.0 ==> b > 0.0
  {
    var n := a + b;
    RatioSum(a, b, n);
    assert n / n == 1.0;
    assert (a / n) * n == a && (b / n) * n == b;
  }

  /** The next hidden state drawn with the uniform x after renormalising the
      two weights leaving `from`. */
  function DrawState(h: ByType<TransitionProbs>, from: PlayType, x: real): (s: PlayType)
    requires NonNegativeTransitions(h) && 0.0 <= x < 1.0
    requires Weight(h, from, Rush) + Weight(h, from, Pass) > 0.0
    ensures Weight(h, from, s) > 0.0
  {
    var a, b := Weight(h, from, Rush), Weight(h, from, Pass);
    var norm := a + b;
    var p := [a / norm, b / norm];
    SplitTwo(a, b);
    assert Sum(p) == 1.0 by {
      assert p[1..][1..] == [];
      assert Sum(p[1..]) == b / norm;
    }
    var k := Pick(p, x);
    HiddenStates[k]
  }

  /** The down counter after one observation: reset on a first down,
      advanced on a next down below fourth down, otherwise kept. */
  function Advance(down: int, o: Outcome): (d: int)
    requires 1 <= down <= 4
    ensures 1 <= d <= 4
    ensures d == 1 <==> o == FirstDown || (down == 1 && o != NextDown)
    ensures o == NextDown ==> d == if down < 4 then down + 1 else 4
    ensures o != FirstDown && o != NextDown ==> d == down
  {
    if o == FirstDown then 1 else if o == NextDown && down < 4 then down + 1 else down
  }

  /** The down counter after a sequence of observations, starting at 1. */
  function DownAfter(outcomes: seq<Outcome>): (d: int)
    ensures 1 <= d <= 4
  {
    if outcomes == [] then 1
    else Advance(DownAfter(outcomes[..|outcomes| - 1]), outcomes[|outcomes| - 1])
  }

  /** The condition under which the source reports that a touchdown is
      unlikely: 15 observations without a final touchdown. */
  predicate UnlikelyMessageAsWritten(drive: seq<Outcome>) {
    |drive| == 15 && drive[14] != Touchdown
  }

  /** What that report is meant to say: all 16 observations were drawn
      without ending on a touchdown. */
  predicate TouchdownNotReached(drive: seq<Outcome>) {
    |drive| == 16 && drive[15] != Touchdown
  }

  /** A drive shorter than 16 ends on a touchdown, so the report as written
      can never be given. */
  lemma UnlikelyMessageNeverShown(drive: seq<Outcome>)
    requires 0 < |drive| <= 16
    requires |drive| < 16 ==> drive[|drive| - 1] == Touchdown
    ensures !UnlikelyMessageAsWritten(drive)
  {
  }

  /** A full-length drive of first downs never reaches the end zone, yet the
      report as written stays silent about it. */
  lemma UnlikelyMessageMissesFullDrive()
    ensures var d := seq(16, _ => FirstDown);
            !UnlikelyMessageAsWritten(d) && TouchdownNotReached(d)
  {
  }

  /** The corrected report is given exactly when the drive did not end on a
      touchdown. */
  lemma TouchdownNotReachedExactly(drive: seq<Outcome>)
    requires 0 < |drive| <= 16
    requires |drive| < 16 ==> drive[|drive| - 1] == Touchdown
    ensures TouchdownNotReached(drive) <==> drive[|drive| - 1] != Touchdown
  {
  }

  /** If no hidden state can be left, every state of a drive is its first. */
  lemma {:induction false} StateNeverChanges(h: ByType<TransitionProbs>, states: seq<PlayType>)
    requires OffColumnsZero(h)
    requires forall j :: 1 <= j < |states| ==> Weight(h, states[j - 1], states[j]) > 0.0
    ensures forall j :: 0 <= j < |states| ==> states[j] == states[0]
  {
    if |states| > 1 {
      var prefix := states[..|states| - 1];
      StateNeverChanges(h, prefix);
      assert states[|states| - 1] == states[|states| - 2];
    }
  }

  /** Every step of a partial drive was possible, checked from its last step
      back: each observation has positive probability in its hidden state,
      each hidden state follows the previous one with positive weight, and a
      NextDown is never drawn on fourth down. */
  ghost predicate Consistent(h: ByType<TransitionProbs>, e: ByType<EmissionProbs>, d: seq<Outcome>, s: seq<PlayType>)
    decreases |d|
  {
    |s| == |d| && |d| > 0
    && EmissionProb(e.Get(s[|s| - 1]), d[|d| - 1]) > 0.0
    && (|d| > 1 ==>
          Consistent(h, e, d[..|d| - 1], s[..|s| - 1])
          && Weight(h, s[|s| - 2], s[|s| - 1]) > 0.0
          && (d[|d| - 1] == NextDown ==> DownAfter(d[..|d| - 1]) < 4))
  }

  /** In a consistent drive no NextDown was drawn on fourth down. */
  lemma {:induction false} ConsistentDowns(h: ByType<TransitionProbs>, e: ByType<EmissionProbs>, d: seq<Outcome>, s: seq<PlayType>)
    requires Consistent(h, e, d, s)
    ensures forall j :: 1 <= j < |d| && d[j] == NextDown ==> DownAfter(d[..j]) < 4
  {
    if |d| > 1 {
      var d' := d[..|d| - 1];
      ConsistentDowns(h, e, d', s[..|s| - 1]);
      forall j | 1 <= j < |d| && d[j] == NextDown ensures DownAfter(d[..j]) < 4 {
        if j < |d'| { assert d[..j] == d'[..j] && d[j] == d'[j]; }
      }
    }
  }

  /** In a consistent drive every observation has positive probability in
      its hidden state. */
  lemma {:induction false} ConsistentObservations(h: ByType<TransitionProbs>, e: ByType<EmissionProbs>, d: seq<Outcome>, s: seq<PlayType>)
    requires Consistent(h, e, d, s)
    ensures forall j :: 0 <= j < |d| ==> EmissionProb(e.Get(s[j]), d[j]) > 0.0
  {
    if |d| > 1 {
      var d', s' := d[..|d| - 1], s[..|s| - 1];
      ConsistentObservations(h, e, d', s');
      forall j | 0 <= j < |d| ensures EmissionProb(e.Get(s[j]), d[j]) > 0.0 {
        if j < |d'| { assert s[j] == s'[j] && d[j] == d'[j]; }
      }
    }
  }

  /** In a consistent drive every hidden state follows the previous one with
      positive weight. */
  lemma {:induction false} ConsistentTransitions(h: ByType<TransitionProbs>, e: ByType<EmissionProbs>, d: seq<Outcome>, s: seq<PlayType>)
    requires Consistent(h, e, d, s)
    ensures forall j :: 1 <= j < |s| ==> Weight(h, s[j - 1], s[j]) > 0.0
  {
    if |d| > 1 {
      var s' := s[..|s| - 1];
      ConsistentTransitions(h, e, d[..|d| - 1], s');
      forall j | 1 <= j < |s| ensures Weight(h, s[j - 1], s[j]) > 0.0 {
        if j < |s'| { assert s[j - 1] == s'[j - 1] && s[j] == s'[j]; }
      }
    }
  }

  /** Every drive the model generates keeps the play type it started with:
      the hidden state of its first observation is behind all the others. */
  lemma DriveKeepsFirstState(h: ByType<TransitionProbs>, e: ByType<EmissionProbs>, d: seq<Outcome>, s: seq<PlayType>)
    requires OffColumnsZero(h) && Consistent(h, e, d, s)
    ensures forall j :: 0 <= j < |s| ==> s[j] == s[0]
  {
    ConsistentTransitions(h, e, d, s);
    StateNeverChanges(h, s);
  }

  lemma ConsistentExtend(h: ByType<TransitionProbs>, e: ByType<EmissionProbs>, d: seq<Outcome>, s: seq<PlayType>, o: Outcome, st: PlayType)
    requires Consistent(h, e, d, s)
    requires EmissionProb(e.Get(st), o) > 0.0 && Weight(h, s[|s| - 1], st) > 0.0
    requires o == NextDown ==> DownAfter(d) < 4
    ensures Consistent(h, e, d + [o], s + [st])
    ensures (d + [o])[0] == d[0] && (s + [st])[0] == s[0]
    ensures DownAfter(d + [o]) == Advance(DownAfter(d), o)
    ensures NoInnerTouchdown(d) && o != Touchdown ==> NoInnerTouchdown(d + [o])
  {
    var d', s' := d + [o], s + [st];
    assert d'[..|d|] == d && s'[..|s|] == s;
  }

  /** Only the first and the last observation of a drive may be a touchdown. */
  ghost predicate NoInnerTouchdown(d: seq<Outcome>) {
    forall j :: 1 <= j < |d| ==> d[j] != Touchdown
  }

  /** A generated drive: the observations, the hidden state behind each one,
      and whether the horizon ran out before a touchdown. */
  datatype Drive = Drive(outcomes: seq<Outcome>, states: seq<PlayType>, touchdownNotReached: bool)

  predicate Uniforms(u: seq<real>) {
    forall k :: 0 <= k < |u| ==> 0.0 <= u[k] < 1.0
  }

  /** The first hidden state, a fair draw between the two play types. */
  function InitialState(x: real): (s: PlayType)
    requires 0.0 <= x < 1.0
    ensures s == Rush <==> x < 0.5
  {
    assert Sum([0.5, 0.5]) == 1.0 by {
      assert [0.5, 0.5][1..] == [0.5];
      assert [0.5][1..] == [];
    }
    HiddenStates[Pick([0.5, 0.5], x)]
  }

  /** The draws from index j on yield no observation the rejection loop
      keeps: none is left, or it is fourth down and every one left is a
      NextDown. */
  predicate Rejected(e: EmissionProbs, currentDown: int, u: seq<real>, j: nat)
    requires Stochastic(e) && Uniforms(u)
  {
    |u| <= j
    || (currentDown == 4 && forall m :: j <= m < |u| ==> DrawOutcome(e, u[m]) == NextDown)
  }

  /** The rejection loop of generate_drive over the draws of u from index j
      on: draw from row e, and draw again while the result is a NextDown on
      fourth down. The observation kept and the index of the first unused
      draw, or None when the draws run out first. */
  function Redraw(e: EmissionProbs, currentDown: int, u: seq<real>, j: nat): (r: Option<(Outcome, nat)>)
    requires Stochastic(e) && Uniforms(u)
    ensures r.Some? ==> j < r.value.1 <= |u|
    decreases |u| - j
  {
    if |u| <= j then None
    else
      var observe := DrawOutcome(e, u[j]);
      if observe == NextDown && currentDown == 4 then Redraw(e, currentDown, u, j + 1)
      else Some((observe, j + 1))
  }

  /** What the rejection loop yields: nothing exactly when the draws are
      rejected, otherwise the first kept draw, every draw before it a
      NextDown on fourth down, and no re-draw off fourth down. */
  lemma {:induction false} RedrawShape(e: EmissionProbs, currentDown: int, u: seq<real>, j: nat)
    requires Stochastic(e) && Uniforms(u)
    ensures var r := Redraw(e, currentDown, u, j);
      && (r.None? <==> Rejected(e, currentDown, u, j))
      && (r.Some? ==>
            var (observe, n) := r.value;
            && observe == DrawOutcome(e, u[n - 1])
            && (forall m :: j <= m < n - 1 ==> currentDown == 4 && DrawOutcome(e, u[m]) == NextDown)
            && (currentDown != 4 ==> n == j + 1)
            && !(observe == NextDown && currentDown == 4))
    decreases |u| - j
  {
    if j < |u| {
      var observe := DrawOutcome(e, u[j]);
      if observe == NextDown && currentDown == 4 {
        var r := Redraw(e, currentDown, u, j + 1);
        assert Redraw(e, currentDown, u, j) == r;
        RedrawShape(e, currentDown, u, j + 1);
        if r.Some? {
          var n := r.value.1;
          forall m | j <= m < n - 1
            ensures DrawOutcome(e, u[m]) == NextDown
          {
            if m == j {} else {}
          }
        }
      } else {
        var n: nat := j + 1;
        assert Redraw(e, currentDown, u, j) == Some((observe, n));
      }
    }
  }

  method DrawAllowed(e: EmissionProbs, currentDown: int, u: seq<real>, j: nat) returns (r: Option<(Outcome, nat)>)
    requires Stochastic(e) && Uniforms(u)
    ensures r == Redraw(e, currentDown, u, j)
    ensures r.None? <==> Rejected(e, currentDown, u, j)
    ensures r.Some? ==>
      var (observe, n) := r.value;
      j < n <= |u|
      && observe == DrawOutcome(e, u[n - 1])
      && (forall m :: j <= m < n - 1 ==> currentDown == 4 && DrawOutcome(e, u[m]) == NextDown)
      && EmissionProb(e, observe) > 0.0
      && !(observe == NextDown && currentDown == 4)
  {
    if |u| <= j {
      RedrawShape(e, currentDown, u, j);
      return None;
    }
    var observe := DrawOutcome(e, u[j]);
    var n := j + 1;
    while observe == NextDown && currentDown == 4
      invariant j < n <= |u|
      invariant observe == DrawOutcome(e, u[n - 1])
      invariant Redraw(e, currentDown, u, j) == Redraw(e, currentDown, u, n - 1)
      decreases |u| - n
    {
      if n == |u| {
        RedrawShape(e, currentDown, u, j);
        return None;
      }
      observe := DrawOutcome(e, u[n]);
      n := n + 1;
    }
    r := Some((observe, n));
    RedrawShape(e, currentDown, u, j);
  }

  /** The draws from index k on cannot complete a loop step out of `from`:
      none is left for the next hidden state, or none that the rejection
      loop keeps is left for the observation. */
  predicate RunsOut(h: ByType<TransitionProbs>, e: ByType<EmissionProbs>, from: PlayType, currentDown: int, u: seq<real>, k: nat)
    requires NonNegativeTransitions(h) && Stochastic(e.rush) && Stochastic(e.pass)
    requires Uniforms(u) && k <= |u|
    requires Weight(h, from, Rush) + Weight(h, from, Pass) > 0.0
  {
    k == |u| || Rejected(e.Get(DrawState(h, from, u[k])), currentDown, u, k + 1)
  }

  /** One step of generate_drive's loop over the draws of u from index k on:
      renormalise the row of the current hidden state and draw the next one
      with u[k], then run the rejection loop from u[k + 1]. The next state,
      its observation and the index of the first unused draw. */
  function StepOf(h: ByType<TransitionProbs>, e: ByType<EmissionProbs>, state: PlayType, currentDown: int, u: seq<real>, k: nat)
    : (r: Result<(PlayType, Outcome, nat)>)
    requires NonNegativeTransitions(h) && Stochastic(e.rush) && Stochastic(e.pass)
    requires Uniforms(u) && k <= |u|
    ensures r.Ok? ==> k + 2 <= r.value.2 <= |u|
  {
    var norm := Weight(h, state, Rush) + Weight(h, state, Pass);
    if norm == 0.0 then Err(InsufficientData)
    else if k == |u| then Err(OutOfDraws)
    else
      var next := DrawState(h, state, u[k]);
      match Redraw(e.Get(next), currentDown, u, k + 1)
      case None => Err(OutOfDraws)
      case Some((observe, n)) => Ok((next, observe, n))
  }

  /** What one step yields. */
  lemma StepOfShape(h: ByType<TransitionProbs>, e: ByType<EmissionProbs>, state: PlayType, currentDown: int, u: seq<real>, k: nat)
    requires NonNegativeTransitions(h) && Stochastic(e.rush) && Stochastic(e.pass)
    requires Uniforms(u) && k <= |u|
    ensures var r := StepOf(h, e, state, currentDown, u, k);
      var norm := Weight(h, state, Rush) + Weight(h, state, Pass);
      && (r.Err? ==> r.error == OutOfDraws || r.error == InsufficientData)
      && ((r.Err? && r.error == InsufficientData) <==> norm == 0.0)
      && ((r.Err? && r.error == OutOfDraws) <==> norm > 0.0 && RunsOut(h, e, state, currentDown, u, k))
      && (r.Ok? ==>
            var (next, observe, k') := r.value;
            && k + 2 <= k' <= |u|
            && norm > 0.0
            && next == DrawState(h, state, u[k])
            && Weight(h, state, next) > 0.0
            && observe == DrawOutcome(e.Get(next), u[k' - 1])
            && (forall m :: k + 1 <= m < k' - 1 ==> currentDown == 4 && DrawOutcome(e.Get(next), u[m]) == NextDown)
            && EmissionProb(e.Get(next), observe) > 0.0
            && !(observe == NextDown && currentDown == 4))
  {
    if Weight(h, state, Rush) + Weight(h, state, Pass) > 0.0 && k < |u| {
      RedrawShape(e.Get(DrawState(h, state, u[k])), currentDown, u, k + 1);
    }
  }

  /** The loop of generate_drive from its i-th step on, over the draws of u
      from index k on, given the drive so far, its hidden states and the
      current state and down. It stops after the 15th step or on a
      touchdown. */
  function Run(h: ByType<TransitionProbs>, e: ByType<EmissionProbs>, state: PlayType, down: int,
               drive: seq<Outcome>, states: seq<PlayType>, u: seq<real>, k: nat, i: nat): Result<Drive>
    requires NonNegativeTransitions(h) && Stochastic(e.rush) && Stochastic(e.pass)
    requires Uniforms(u) && k <= |u| && i <= 15 && 1 <= down <= 4
    decreases 15 - i
  {
    if i == 15 then Ok(Drive(drive, states, TouchdownNotReached(drive)))
    else
      match StepOf(h, e, state, down, u, k)
      case Err(error) => Err(error)
      case Ok((next, observe, k')) =>
        var drive', states' := drive + [observe], states + [next];
        if observe == Touchdown then Ok(Drive(drive', states', TouchdownNotReached(drive')))
        else Run(h, e, next, Advance(down, observe), drive', states', u, k', i + 1)
  }

  /** generate_drive over the draws of u: a fair draw of the first hidden
      state with u[0], its first observation with u[1], then the loop. */
  function Generate(h: ByType<TransitionProbs>, e: ByType<EmissionProbs>, u: seq<real>): Result<Drive>
    requires NonNegativeTransitions(h) && Stochastic(e.rush) && Stochastic(e.pass) && Uniforms(u)
  {
    if |u| < 2 then Err(OutOfDraws)
    else
      var first := InitialState(u[0]);
      var opening := DrawOutcome(e.Get(first), u[1]);
      Run(h, e, first, Advance(1, opening), [opening], [first], u, 2, 0)
  }

  /** The loop fails only for a 0/0 row or for draws that run out, and for
      the 0/0 row exactly when the current state's weights sum to 0: with
      the off columns 0 the state never changes. */
  lemma {:induction false} RunErrors(h: ByType<TransitionProbs>, e: ByType<EmissionProbs>, state: PlayType, down: int,
                                     drive: seq<Outcome>, states: seq<PlayType>, u: seq<real>, k: nat, i: nat)
    requires NonNegativeTransitions(h) && OffColumnsZero(h) && Stochastic(e.rush) && Stochastic(e.pass)
    requires Uniforms(u) && k <= |u| && i <= 15 && 1 <= down <= 4
    ensures var r := Run(h, e, state, down, drive, states, u, k, i);
      (r.Err? ==> r.error == OutOfDraws || r.error == InsufficientData)
      && (i < 15 ==> ((r.Err? && r.error == InsufficientData) <==> Weight(h, state, Rush) + Weight(h, state, Pass) == 0.0))
    decreases 15 - i
  {
    if i < 15 {
      var step := StepOf(h, e, state, down, u, k);
      StepOfShape(h, e, state, down, u, k);
      if step.Ok? {
        var (next, observe, k') := step.value;
        assert next == state;
        if observe != Touchdown {
          RunErrors(h, e, next, Advance(down, observe), drive + [observe], states + [next], u, k', i + 1);
        }
      }
    }
  }

  /** A drive the loop completes from a partial drive of i + 1 observations
      extends it by at least one step, to at most 16, one hidden state per
      observation, keeping the opening observation and state. */
  lemma {:induction false} RunEnds(h: ByType<TransitionProbs>, e: ByType<EmissionProbs>, state: PlayType, down: int,
                                   drive: seq<Outcome>, states: seq<PlayType>, u: seq<real>, k: nat, i: nat)
    requires NonNegativeTransitions(h) && Stochastic(e.rush) && Stochastic(e.pass)
    requires Uniforms(u) && k <= |u| && i <= 15 && 1 <= down <= 4
    requires |drive| == i + 1 && |states| == |drive|
    ensures var r := Run(h, e, state, down, drive, states, u, k, i);
      r.Ok? ==>
        var d, s := r.value.outcomes, r.value.states;
        |drive| <= |d| <= 16 && (i < 15 ==> |drive| < |d|) && |s| == |d|
        && d[0] == drive[0] && s[0] == states[0]
    decreases 15 - i
  {
    if i < 15 {
      var step := StepOf(h, e, state, down, u, k);
      if step.Ok? {
        var (next, observe, k') := step.value;
        var drive', states' := drive + [observe], states + [next];
        assert drive'[0] == drive[0] && states'[0] == states[0];
        if observe != Touchdown {
          RunEnds(h, e, next, Advance(down, observe), drive', states', u, k', i + 1);
        }
      }
    }
  }

  /** A drive the loop completes has no touchdown inside and ends on one
      when shorter than 16; its flag is the corrected report. */
  lemma {:induction false} RunTouchdowns(h: ByType<TransitionProbs>, e: ByType<EmissionProbs>, state: PlayType, down: int,
                                         drive: seq<Outcome>, states: seq<PlayType>, u: seq<real>, k: nat, i: nat)
    requires NonNegativeTransitions(h) && Stochastic(e.rush) && Stochastic(e.pass)
    requires Uniforms(u) && k <= |u| && i <= 15 && 1 <= down <= 4
    requires |drive| == i + 1 && NoInnerTouchdown(drive)
    ensures var r := Run(h, e, state, down, drive, states, u, k, i);
      r.Ok? ==>
        var d := r.value.outcomes;
        0 < |d| && (forall j :: 1 <= j < |d| - 1 ==> d[j] != Touchdown)
        && (|d| < 16 ==> d[|d| - 1] == Touchdown)
        && r.value.touchdownNotReached == TouchdownNotReached(d)
    decreases 15 - i
  {
    if i < 15 {
      var step := StepOf(h, e, state, down, u, k);
      if step.Ok? {
        var (next, observe, k') := step.value;
        var drive' := drive + [observe];
        assert drive'[|drive'| - 1] == observe;
        if observe != Touchdown {
          assert NoInnerTouchdown(drive');
          RunTouchdowns(h, e, next, Advance(down, observe), drive', states + [next], u, k', i + 1);
        }
      }
    }
  }

  /** Every step the loop adds to a possible partial drive is possible. */
  lemma {:induction false} RunConsistent(h: ByType<TransitionProbs>, e: ByType<EmissionProbs>, state: PlayType, down: int,
                                         drive: seq<Outcome>, states: seq<PlayType>, u: seq<real>, k: nat, i: nat)
    requires NonNegativeTransitions(h) && Stochastic(e.rush) && Stochastic(e.pass)
    requires Uniforms(u) && k <= |u| && i <= 15 && 1 <= down <= 4
    requires Consistent(h, e, drive, states) && states[|states| - 1] == state && down == DownAfter(drive)
    ensures var r := Run(h, e, state, down, drive, states, u, k, i);
      r.Ok? ==> Consistent(h, e, r.value.outcomes, r.value.states)
    decreases 15 - i
  {
    if i < 15 {
      var step := StepOf(h, e, state, down, u, k);
      StepOfShape(h, e, state, down, u, k);
      if step.Ok? {
        var (next, observe, k') := step.value;
        ConsistentExtend(h, e, drive, states, observe, next);
        if observe != Touchdown {
          var states' := states + [next];
          assert states'[|states'| - 1] == next;
          RunConsistent(h, e, next, Advance(down, observe), drive + [observe], states', u, k', i + 1);
        }
      }
    }
  }

  /** Every drive the generator produces from draws u: fewer than two draws
      or draws that run out give OutOfDraws, a first state whose weights sum
      to 0 gives InsufficientData, and otherwise the drive starts with the
      fair draw and its observation, has 2 to 16 observations with one
      hidden state each, no touchdown inside, a touchdown last when shorter
      than 16, and every step possible. */
  lemma GenerateShape(h: ByType<TransitionProbs>, e: ByType<EmissionProbs>, u: seq<real>)
    requires NonNegativeTransitions(h) && OffColumnsZero(h) && Stochastic(e.rush) && Stochastic(e.pass) && Uniforms(u)
    ensures var r := Generate(h, e, u);
      (r.Err? ==> r.error == OutOfDraws || r.error == InsufficientData)
      && (|u| < 2 ==> r == Err(OutOfDraws))
      && ((r.Err? && r.error == InsufficientData) <==>
            |u| >= 2 && Weight(h, InitialState(u[0]), Rush) + Weight(h, InitialState(u[0]), Pass) == 0.0)
      && (r.Ok? ==>
            var d, s := r.value.outcomes, r.value.states;
            |u| >= 2 && 2 <= |d| <= 16 && |s| == |d|
            && s[0] == InitialState(u[0]) && d[0] == DrawOutcome(e.Get(s[0]), u[1])
            && (forall j :: 1 <= j < |d| - 1 ==> d[j] != Touchdown)
            && (|d| < 16 ==> d[|d| - 1] == Touchdown)
            && Consistent(h, e, d, s)
            && (r.value.touchdownNotReached <==> d[|d| - 1] != Touchdown))
  {
    if |u| >= 2 {
      var first := InitialState(u[0]);
      var opening := DrawOutcome(e.Get(first), u[1]);
      assert Generate(h, e, u) == Run(h, e, first, Advance(1, opening), [opening], [first], u, 2, 0);
      OpeningConsistent(h, e, first, opening);
      RunErrors(h, e, first, Advance(1, opening), [opening], [first], u, 2, 0);
      RunEnds(h, e, first, Advance(1, opening), [opening], [first], u, 2, 0);
      RunTouchdowns(h, e, first, Advance(1, opening), [opening], [first], u, 2, 0);
      RunConsistent(h, e, first, Advance(1, opening), [opening], [first], u, 2, 0);
      var r := Generate(h, e, u);
      if r.Ok? {
        TouchdownNotReachedExactly(r.value.outcomes);
      }
    }
  }

  /** A drive of one possible observation is a possible partial drive. */
  lemma OpeningConsistent(h: ByType<TransitionProbs>, e: ByType<EmissionProbs>, first: PlayType, opening: Outcome)
    requires EmissionProb(e.Get(first), opening) > 0.0
    ensures Consistent(h, e, [opening], [first])
    ensures DownAfter([opening]) == Advance(1, opening) && NoInnerTouchdown([opening])
  {
    assert [opening][..0] == [];
  }

  /** The model of one situation. */
  class HMM {
    const data: seq<PlayRecord>
    var pHidden: ByType<TransitionProbs>
    var pObserved: ByType<EmissionProbs>

    /** The tables are distributions with the shapes the estimate gives. */
    ghost predicate Valid()
      reads this
    {
      NonNegativeTransitions(pHidden) && OffColumnsZero(pHidden)
      && Stochastic(pObserved.rush) && Stochastic(pObserved.pass)
    }

    constructor (data: seq<PlayRecord>)
      requires BothTypesFollow(data)
      requires forall i :: 0 <= i < |data| ==> WellFormed(data[i])
      ensures this.data == data
      ensures pHidden == EstimatedTransitions(data) && pObserved == EstimatedEmissions(data)
      ensures Valid()
    {
      this.data := data;
      new;
      Calculate();
    }

    /** HMM.calculate: count transitions and observations in one pass, then
        divide each row by its total. */
    method Calculate()
      requires BothTypesFollow(data)
      requires forall i :: 0 <= i < |data| ==> WellFormed(data[i])
      modifies this
      ensures pHidden == EstimatedTransitions(data) && pObserved == EstimatedEmissions(data)
      ensures Valid()
    {
      var hidden, observed := CountData();
      TransitionTotal(data, Rush);
      TransitionTotal(data, Pass);
      EmissionTotal(data, Rush);
      EmissionTotal(data, Pass);
      pHidden := ByType(NormalizeTransitions(hidden.rush), NormalizeTransitions(hidden.pass));
      pObserved := ByType(NormalizeEmissions(observed.rush), NormalizeEmissions(observed.pass));
      EstimatedTransitionRows(data);
      EstimatedEmissionRows(data);
    }

    /** The counting pass of calculate: one transition per pair of
        consecutive plays, one observation per play. */
    method CountData() returns (hidden: ByType<TransitionCounts>, observed: ByType<EmissionCounts>)
      ensures hidden == Transitions(data) && observed == Emissions(data)
    {
      hidden := ByType(NoTransitions, NoTransitions);
      observed := ByType(NoEmissions, NoEmissions);
      var prev := Rush;
      var i := 0;
      for n := 0 to |data|
        invariant hidden == Transitions(data[..n]) && observed == Emissions(data[..n])
        invariant i == (if n == 0 then 0 else 1)
        invariant n > 0 ==> prev == data[n - 1].playType
      {
        var row := data[n];
        ghost var rows := data[..n + 1];
        assert rows[..n] == data[..n] && rows[n] == row;
        if i == 0 {
          prev := row.playType;
          i := i + 1;
        } else {
          assert rows[n - 1].playType == prev;
          hidden := AddTransition(hidden, prev, row.playType);
          prev := row.playType;
        }
        assert hidden == Transitions(rows);
        var outcome := ObservedOutcome(row);
        if row.playType == Rush {
          observed := observed.(rush := AddEmission(observed.rush, outcome));
        } else {
          observed := observed.(pass := AddEmission(observed.pass, outcome));
        }
        assert observed == Emissions(rows);
      }
      assert data[..|data|] == data;
    }
    /** The start of generate_drive: a fair draw of the first hidden state,
        then an observation from its row, from the first two draws of u. */
    method FirstDraw(u: seq<real>) returns (r: Result<(PlayType, Outcome)>)
      requires Valid() && Uniforms(u)
      ensures r.Err? <==> |u| < 2
      ensures r.Err? ==> r.error == OutOfDraws
      ensures r.Ok? ==> r.value.0 == InitialState(u[0]) && r.value.1 == DrawOutcome(pObserved.Get(r.value.0), u[1])
      ensures r.Ok? ==> EmissionProb(pObserved.Get(r.value.0), r.value.1) > 0.0
    {
      if |u| < 2 { return Err(OutOfDraws); }
      var state := InitialState(u[0]);
      var observe := DrawOutcome(pObserved.Get(state), u[1]);
      r := Ok((state, observe));
    }

    /** One step of generate_drive's loop, with draws taken from u starting
        at k. */
    method Step(state: PlayType, currentDown: int, u: seq<real>, k: nat) returns (r: Result<(PlayType, Outcome, nat)>)
      requires Valid() && Uniforms(u) && k <= |u|
      ensures r == StepOf(pHidden, pObserved, state, currentDown, u, k)
      ensures r.Err? ==> r.error == OutOfDraws || r.error == InsufficientData
      ensures (r.Err? && r.error == InsufficientData) <==> Weight(pHidden, state, Rush) + Weight(pHidden, state, Pass) == 0.0
      ensures r.Err? && r.error == OutOfDraws ==>
        Weight(pHidden, state, Rush) + Weight(pHidden, state, Pass) > 0.0
        && RunsOut(pHidden, pObserved, state, currentDown, u, k)
      ensures r.Ok? ==>
        var (next, observe, k') := r.value;
        k + 2 <= k' <= |u|
        && Weight(pHidden, state, next) > 0.0
        && EmissionProb(pObserved.Get(next), observe) > 0.0
        && !(observe == NextDown && currentDown == 4)
    {
      StepOfShape(pHidden, pObserved, state, currentDown, u, k);
      var h := pHidden;
      var norm := Weight(h, state, Rush) + Weight(h, state, Pass);
      if norm == 0.0 { return Err(InsufficientData); }
      if k == |u| { return Err(OutOfDraws); }
      var next := DrawState(h, state, u[k]);
      var drawn := DrawAllowed(pObserved.Get(next), currentDown, u, k + 1);
      if drawn.None? { return Err(OutOfDraws); }
      var (observe, j) := drawn.value;
      r := Ok((next, observe, j));
    }

    /** generate_drive with its random draws supplied as uniforms in [0, 1),
        one consumed per draw. */
    method GenerateDrive(u: seq<real>) returns (r: Result<Drive>)
      requires Valid() && Uniforms(u)
      ensures r == Generate(pHidden, pObserved, u)
      ensures r.Err? ==> r.error == OutOfDraws || r.error == InsufficientData
      ensures (r.Err? && r.error == InsufficientData) <==>
        |u| >= 2 && Weight(pHidden, InitialState(u[0]), Rush) + Weight(pHidden, InitialState(u[0]), Pass) == 0.0
      ensures r.Ok? ==>
        var d := r.value.outcomes;
        var s := r.value.states;
        2 <= |d| <= 16 && |s| == |d| && |u| >= 2
        && s[0] == InitialState(u[0]) && d[0] == DrawOutcome(pObserved.Get(s[0]), u[1])
        && (forall j :: 1 <= j < |d| - 1 ==> d[j] != Touchdown)
        && (|d| < 16 ==> d[|d| - 1] == Touchdown)
        && Consistent(pHidden, pObserved, d, s)
        && (r.value.touchdownNotReached <==> d[|d| - 1] != Touchdown)
    {
      GenerateShape(pHidden, pObserved, u);
      var start := FirstDraw(u);
      if start.Err? { return Err(start.error); }
      var (state, observe) := start.value;
      r := DriveFrom(state, observe, u);
    }

    /** The loop of generate_drive, after the first draw: up to 15 steps from
        the first hidden state and observation, stopping at a touchdown. */
    method DriveFrom(first: PlayType, opening: Outcome, u: seq<real>) returns (r: Result<Drive>)
      requires Valid() && Uniforms(u) && |u| >= 2
      requires EmissionProb(pObserved.Get(first), opening) > 0.0
      ensures r == Run(pHidden, pObserved, first, Advance(1, opening), [opening], [first], u, 2, 0)
      ensures r.Err? ==> r.error == OutOfDraws || r.error == InsufficientData
      ensures (r.Err? && r.error == InsufficientData) <==> Weight(pHidden, first, Rush) + Weight(pHidden, first, Pass) == 0.0
      ensures r.Ok? ==>
        var d := r.value.outcomes;
        var s := r.value.states;
        2 <= |d| <= 16 && |s| == |d| && s[0] == first && d[0] == opening
        && (forall j :: 1 <= j < |d| - 1 ==> d[j] != Touchdown)
        && (|d| < 16 ==> d[|d| - 1] == Touchdown)
        && Consistent(pHidden, pObserved, d, s)
        && (r.value.touchdownNotReached <==> d[|d| - 1] != Touchdown)
    {
      OpeningConsistent(pHidden, pObserved, first, opening);
      RunErrors(pHidden, pObserved, first, Advance(1, opening), [opening], [first], u, 2, 0);
      RunEnds(pHidden, pObserved, first, Advance(1, opening), [opening], [first], u, 2, 0);
      RunTouchdowns(pHidden, pObserved, first, Advance(1, opening), [opening], [first], u, 2, 0);
      RunConsistent(pHidden, pObserved, first, Advance(1, opening), [opening], [first], u, 2, 0);
      r := RunLoop(first, opening, u);
      if r.Ok? {
        TouchdownNotReachedExactly(r.value.outcomes);
      }
    }

    /** The 15 steps of generate_drive's loop, stopping at a touchdown. */
    method RunLoop(first: PlayType, opening: Outcome, u: seq<real>) returns (r: Result<Drive>)
      requires Valid() && Uniforms(u) && |u| >= 2
      ensures r == Run(pHidden, pObserved, first, Advance(1, opening), [opening], [first], u, 2, 0)
    {
      ghost var whole := Run(pHidden, pObserved, first, Advance(1, opening), [opening], [first], u, 2, 0);
      var state, observe := first, opening;
      var k := 2;
      var currentDown := Advance(1, observe);
      var drive := [observe];
      var states := [state];

      var i := 0;
      while i < 15
        invariant 0 <= i <= 15 && 2 <= k <= |u| && 1 <= currentDown <= 4
        invariant whole == Run(pHidden, pObserved, state, currentDown, drive, states, u, k, i)
      {
        var step := Step(state, currentDown, u, k);
        if step.Err? {
          return Err(step.error);
        }
        var (next, obs, k') := step.value;
        state, observe, k := next, obs, k';
        currentDown := Advance(currentDown, observe);
        drive := drive + [observe];
        states := states + [state];
        i := i + 1;

        if observe == Touchdown {
          break;
        }
      }
      r := Ok(Drive(drive, states, TouchdownNotReached(drive)));
    }
  }
}
