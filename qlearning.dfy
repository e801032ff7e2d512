/** Q-learning over all of one team's plays: a table of values per quarter,
    field side, down state and action (formation plus play type), updated
    once per play in game order, then read at the requested situation. */
module QLearning {
  import opened Util
  import Plays

  /** The rows of every Q table. The last three are terminal: plays move into
      them but never start from them. */
  datatype State = FirstDown | SecondDown | ThirdDown | FourthDown | Touchdown | Turnover | NegativePlay

  predicate Terminal(s: State) {
    s == Touchdown || s == Turnover || s == NegativePlay
  }

  /** The state a play starts from, looked up by its down. */
  function DownState(down: int): (s: State)
    requires 1 <= down <= 4
    ensures !Terminal(s)
    ensures s == [FirstDown, SecondDown, ThirdDown, FourthDown][down - 1]
  {
    if down == 1 then FirstDown else if down == 2 then SecondDown else if down == 3 then ThirdDown else FourthDown
  }

  /** The state a play leads to, read from its resulting-down label: any label
      other than the downs 1 to 4 and TD, such as the 5 a failed fourth down
      keeps, is taken as a turnover. */
  function NextState(l: Plays.Label): (s: State)
    ensures s != NegativePlay
    ensures s == Touchdown <==> l == Plays.TD
    ensures s == Turnover <==> !(l == Plays.TD || (l.Num? && 1 <= l.n <= 4))
    ensures l.Num? && 1 <= l.n <= 4 ==> s == DownState(l.n)
  {
    if l == Plays.Num(1) then FirstDown
    else if l == Plays.Num(2) then SecondDown
    else if l == Plays.Num(3) then ThirdDown
    else if l == Plays.Num(4) then FourthDown
    else if l == Plays.TD then Touchdown
    else Turnover
  }

  /** The reward for reaching a state; the three later downs share the
      next-down reward. NegativePlay has no entry: it is rewarded by flag. */
  function StateReward(rw: Plays.Rewards, s: State): (x: real)
    requires s != NegativePlay
    ensures s == FirstDown ==> x == rw.firstDown
    ensures !Terminal(s) && s != FirstDown ==> x == rw.nextDown
    ensures Terminal(s) ==> x == (if s == Touchdown then rw.touchdown else rw.turnover)
  {
    match s
    case FirstDown => rw.firstDown
    case SecondDown => rw.nextDown
    case ThirdDown => rw.nextDown
    case FourthDown => rw.nextDown
    case Touchdown => rw.touchdown
    case Turnover => rw.turnover
  }

  /** The Q-learning view of the failed fourth down the row derivation keeps
      as label 5: it ends the drive as a turnover, rewarded as one. */
  lemma FailedFourthDownIsTurnover(rw: Plays.Rewards)
    ensures NextState(Plays.Num(5)) == Turnover
    ensures StateReward(rw, NextState(Plays.Num(5))) == rw.turnover
  {
  }

  // ---------------------------------------------------------------------
  // Actions

  function PlayTypeName(pt: Plays.PlayType): string {
    if pt == Plays.Pass then "PASS" else "RUSH"
  }

  /** What follows the formation in a column name: a space and the play type. */
  function Tag(pt: Plays.PlayType): string {
    " " + PlayTypeName(pt)
  }

  /** The column a play updates: its formation, a space, its play type. */
  function ActionOf(r: Plays.PlayRecord): string {
    r.formation + Tag(r.playType)
  }

  /** Each formation with the play type appended. */
  function Labelled(fs: seq<string>, pt: Plays.PlayType): (out: seq<string>)
    ensures |out| == |fs|
  {
    seq(|fs|, i requires 0 <= i < |fs| => fs[i] + Tag(pt))
  }

  /** The columns of every table: the pass formations, then the rush
      formations, each in order of first appearance. */
  function Actions(data: seq<Plays.PlayRecord>): seq<string> {
    Labelled(Plays.UniqueFormations(data, Plays.Pass), Plays.Pass)
    + Labelled(Plays.UniqueFormations(data, Plays.Rush), Plays.Rush)
  }

  lemma SuffixCancels(a: string, b: string, t: string)
    requires a + t == b + t
    ensures a == b
  {
    assert a == (a + t)[..|a|];
    assert b == (b + t)[..|b|];
  }

  /** Every column is named once: formations are listed once per play type,
      and a pass column never equals a rush column since their last letters
      differ. */
  lemma ActionsDistinct(data: seq<Plays.PlayRecord>)
    ensures Distinct(Actions(data))
  {
    var passes := Plays.UniqueFormations(data, Plays.Pass);
    var rushes := Plays.UniqueFormations(data, Plays.Rush);
    var lp, lr := Labelled(passes, Plays.Pass), Labelled(rushes, Plays.Rush);
    var all := Actions(data);
    forall i, j | 0 <= i < j < |all| ensures all[i] != all[j] {
      if j < |lp| {
        if lp[i] == lp[j] { SuffixCancels(passes[i], passes[j], Tag(Plays.Pass)); }
      } else if |lp| <= i {
        if lr[i - |lp|] == lr[j - |lp|] { SuffixCancels(rushes[i - |lp|], rushes[j - |lp|], Tag(Plays.Rush)); }
      } else {
        var x, y := all[i], all[j];
        assert x == passes[i] + Tag(Plays.Pass) && y == rushes[j - |lp|] + Tag(Plays.Rush);
        assert x[|x| - 1] == 'S' && y[|y| - 1] == 'H';
      }
    }
  }

  /** The action of every play is a column. */
  lemma ActionsCover(data: seq<Plays.PlayRecord>, i: nat)
    requires i < |data|
    ensures ActionOf(data[i]) in Actions(data)
  {
    var r := data[i];
    var fs := Plays.UniqueFormations(data, r.playType);
    assert Plays.HasFormation(data, r.playType, r.formation);
    var k :| 0 <= k < |fs| && fs[k] == r.formation;
    var l := Labelled(fs, r.playType);
    assert l[k] == ActionOf(r);
    var lp := Labelled(Plays.UniqueFormations(data, Plays.Pass), Plays.Pass);
    if r.playType == Plays.Pass {
      assert Actions(data)[k] == l[k];
    } else {
      assert Actions(data)[|lp| + k] == l[k];
    }
  }

  /** Every column is the action of some play. */
  lemma ActionsFromData(data: seq<Plays.PlayRecord>, a: string)
    requires a in Actions(data)
    ensures exists i :: 0 <= i < |data| && ActionOf(data[i]) == a
  {
    var passes := Plays.UniqueFormations(data, Plays.Pass);
    var rushes := Plays.UniqueFormations(data, Plays.Rush);
    var lp := Labelled(passes, Plays.Pass);
    var all := Actions(data);
    var k :| 0 <= k < |all| && all[k] == a;
    if k < |lp| {
      assert Plays.HasFormation(data, Plays.Pass, passes[k]);
      var i :| 0 <= i < |data| && data[i].playType == Plays.Pass && data[i].formation == passes[k];
      assert ActionOf(data[i]) == a;
    } else {
      assert Plays.HasFormation(data, Plays.Rush, rushes[k - |lp|]);
      var i :| 0 <= i < |data| && data[i].playType == Plays.Rush && data[i].formation == rushes[k - |lp|];
      assert ActionOf(data[i]) == a;
    }
  }

  // ---------------------------------------------------------------------
  // Tables

  /** One entry: quarter index (0 to 3, 4 for overtime), field side (0 own,
      1 opponent's), row and column. */
  datatype Cell = Cell(quarter: nat, side: nat, state: State, action: string)

  const States: seq<State> := [FirstDown, SecondDown, ThirdDown, FourthDown, Touchdown, Turnover, NegativePlay]

  predicate IsCell(c: Cell, actions: seq<string>) {
    c.quarter < 5 && c.side < 2 && c.action in actions
  }

  function Cells(actions: seq<string>): set<Cell> {
    set q: nat, s: nat, st, a | q < 5 && s < 2 && st in States && a in actions :: Cell(q, s, st, a)
  }

  lemma CellsExactly(actions: seq<string>)
    ensures forall c :: c in Cells(actions) <==> IsCell(c, actions)
  {
    forall c | IsCell(c, actions) ensures c in Cells(actions) {
      assert c.state in States by {
        match c.state
        case FirstDown => assert States[0] == c.state;
        case SecondDown => assert States[1] == c.state;
        case ThirdDown => assert States[2] == c.state;
        case FourthDown => assert States[3] == c.state;
        case Touchdown => assert States[4] == c.state;
        case Turnover => assert States[5] == c.state;
        case NegativePlay => assert States[6] == c.state;
      }
      assert c == Cell(c.quarter, c.side, c.state, c.action);
    }
  }

  /** Ten zero tables, one per quarter and field side. */
  function ZeroTable(actions: seq<string>): (t: map<Cell, real>)
    ensures Complete(t, actions)
    ensures forall c :: c in t ==> t[c] == 0.0
  {
    map c | c in Cells(actions) :: 0.0
  }

  /** A table with an entry for every cell and nothing else. */
  predicate Complete(t: map<Cell, real>, actions: seq<string>) {
    t.Keys == Cells(actions)
  }

  /** The entry of a cell; every cell the model reads is in a complete table
      (see UpdateComplete), so the default is never what a read returns. */
  function Value(t: map<Cell, real>, c: Cell): real {
    if c in t then t[c] else 0.0
  }

  /** A row of one table, in column order. */
  function Row(t: map<Cell, real>, actions: seq<string>, q: nat, side: nat, s: State): (v: seq<real>)
    ensures |v| == |actions|
    ensures forall i :: 0 <= i < |actions| ==> v[i] == Value(t, Cell(q, side, s, actions[i]))
  {
    seq(|actions|, i requires 0 <= i < |actions| => Value(t, Cell(q, side, s, actions[i])))
  }

  /** The largest value of a row. */
  function RowMax(t: map<Cell, real>, actions: seq<string>, q: nat, side: nat, s: State): (m: real)
    requires |actions| > 0
    ensures exists i :: 0 <= i < |actions| && m == Value(t, Cell(q, side, s, actions[i]))
    ensures forall i :: 0 <= i < |actions| ==> Value(t, Cell(q, side, s, actions[i])) <= m
  {
    var v := Row(t, actions, q, side, s);
    var k := FirstMax(v);
    v[k]
  }

  const LearningRate: real := 0.3
  const Discount: real := 0.4

  predicate ValidQuarter(l: Plays.QuarterLabel) {
    l == Plays.OT || (l.Numbered? && 1 <= l.n <= 4)
  }

  /** Which of the five tables of a side holds a quarter. */
  function QuarterIndex(l: Plays.QuarterLabel): (q: nat)
    requires ValidQuarter(l)
    ensures q < 5 && (q == 4 <==> l == Plays.OT)
    ensures l.Numbered? ==> q == l.n - 1
  {
    if l == Plays.OT then 4 else l.n - 1
  }

  function SideIndex(side: string): (s: nat)
    ensures s < 2 && (s == 0 <==> side == "OWN")
  {
    if side == "OWN" then 0 else 1
  }

  /** A play of quarter n is learned into the table the decision for
      quarter n reads, and distinct quarters have distinct tables. */
  lemma QuarterIndexOfLabel(quarter: int, other: int)
    requires 1 <= quarter <= 5 && 1 <= other <= 5
    ensures ValidQuarter(Plays.QuarterLabelOf(quarter))
    ensures QuarterIndex(Plays.QuarterLabelOf(quarter)) == quarter - 1
    ensures quarter != other ==> QuarterIndex(Plays.QuarterLabelOf(quarter)) != QuarterIndex(Plays.QuarterLabelOf(other))
  {
  }

  /** What the update needs of a play: a down of 1 to 4, a quarter that has
      a table, and an action that is a column. */
  predicate Learnable(r: Plays.PlayRecord, actions: seq<string>) {
    1 <= r.down <= 4 && ValidQuarter(r.quarter) && ActionOf(r) in actions
  }

  /** The cell a play updates: the row of its down, in the table of its
      quarter and field side, at its action's column. */
  function CurrentCell(r: Plays.PlayRecord): (c: Cell)
    requires 1 <= r.down <= 4 && ValidQuarter(r.quarter)
    ensures !Terminal(c.state) && c.state == DownState(r.down)
    ensures c.quarter < 5 && c.quarter == QuarterIndex(r.quarter)
    ensures c.side < 2 && (c.side == 0 <==> r.yardLine == "OWN")
    ensures c.action == ActionOf(r)
  {
    Cell(QuarterIndex(r.quarter), SideIndex(r.yardLine), DownState(r.down), ActionOf(r))
  }

  /** The state a play moves into: NegativePlay when it lost yards, else the
      state its label names. */
  function Successor(r: Plays.PlayRecord): (s: State)
    ensures s == NegativePlay <==> r.isNegativePlay
    ensures !r.isNegativePlay ==> s == NextState(r.nextDown)
    ensures s == Touchdown <==> !r.isNegativePlay && r.nextDown == Plays.TD
  {
    if r.isNegativePlay then NegativePlay else NextState(r.nextDown)
  }

  /** The reward of a play: the negative-play reward when it lost yards,
      else the reward of the state it moves into. */
  function PlayReward(rw: Plays.Rewards, r: Plays.PlayRecord): (x: real)
    ensures Successor(r) == NegativePlay ==> x == rw.negPlay
    ensures Successor(r) != NegativePlay ==> x == StateReward(rw, Successor(r))
  {
    if r.isNegativePlay then rw.negPlay else StateReward(rw, NextState(r.nextDown))
  }

  /** The Q-learning rule: move the old value q by the learning rate towards
      the reward plus the discounted best value of the next state. */
  function Learned(q: real, reward: real, best: real): real {
    q + LearningRate * (reward + Discount * best - q)
  }

  /** One step of the update rule for one play. */
  function Update(t: map<Cell, real>, actions: seq<string>, rw: Plays.Rewards, r: Plays.PlayRecord): (u: map<Cell, real>)
    requires Learnable(r, actions)
    ensures u.Keys == t.Keys + {CurrentCell(r)}
    ensures IsCell(CurrentCell(r), actions)
  {
    var cur := CurrentCell(r);
    var best := RowMax(t, actions, cur.quarter, cur.side, Successor(r));
    var q := Value(t, cur);
    t[cur := Learned(q, PlayReward(rw, r), best)]
  }

  ghost predicate AllLearnable(data: seq<Plays.PlayRecord>, actions: seq<string>) {
    forall i :: 0 <= i < |data| ==> Learnable(data[i], actions)
  }

  lemma LearnablePrefix(data: seq<Plays.PlayRecord>, actions: seq<string>, n: nat)
    requires AllLearnable(data, actions) && n <= |data|
    ensures AllLearnable(data[..n], actions)
  {
    forall i | 0 <= i < n ensures Learnable(data[..n][i], actions) {
      assert data[..n][i] == data[i];
    }
  }

  /** The table after updating with every play in order. */
  function Fill(t: map<Cell, real>, actions: seq<string>, rw: Plays.Rewards, data: seq<Plays.PlayRecord>): (f: map<Cell, real>)
    requires AllLearnable(data, actions)
    ensures t.Keys <= f.Keys
    ensures forall c :: c in f.Keys - t.Keys ==> IsCell(c, actions) && !Terminal(c.state)
  {
    if data == [] then t
    else
      LearnablePrefix(data, actions, |data| - 1);
      Update(Fill(t, actions, rw, data[..|data| - 1]), actions, rw, data[|data| - 1])
  }

  // ---------------------------------------------------------------------
  // Properties of the update

  /** The cell a play updates is in every complete table. */
  lemma CurrentCellPresent(t: map<Cell, real>, actions: seq<string>, r: Plays.PlayRecord)
    requires Complete(t, actions) && Learnable(r, actions)
    ensures CurrentCell(r) in t
  {
    CellsExactly(actions);
  }

  /** An update writes only a cell that is already there, so a complete table
      stays complete. */
  lemma UpdateComplete(t: map<Cell, real>, actions: seq<string>, rw: Plays.Rewards, r: Plays.PlayRecord)
    requires Complete(t, actions) && Learnable(r, actions)
    ensures Complete(Update(t, actions, rw, r), actions)
  {
    CurrentCellPresent(t, actions, r);
  }

  lemma {:induction false} FillComplete(t: map<Cell, real>, actions: seq<string>, rw: Plays.Rewards, data: seq<Plays.PlayRecord>)
    requires Complete(t, actions) && AllLearnable(data, actions)
    ensures Complete(Fill(t, actions, rw, data), actions)
  {
    if data != [] {
      LearnablePrefix(data, actions, |data| - 1);
      FillComplete(t, actions, rw, data[..|data| - 1]);
      UpdateComplete(Fill(t, actions, rw, data[..|data| - 1]), actions, rw, data[|data| - 1]);
    }
  }

  /** An update touches the one cell of the play's quarter, side, down and
      action, moving it by the learning rate towards the reward plus the
      discounted best value of the state the play leads to. */
  lemma UpdateChangesOneCell(t: map<Cell, real>, actions: seq<string>, rw: Plays.Rewards, r: Plays.PlayRecord)
    requires Learnable(r, actions)
    ensures var t' := Update(t, actions, rw, r);
            var cur := CurrentCell(r);
            var next := Successor(r);
            !Terminal(cur.state)
            && (forall c :: c != cur ==> Value(t', c) == Value(t, c))
            && exists i :: 0 <= i < |actions|
                 && Value(t', cur) - Value(t, cur) == LearningRate * (PlayReward(rw, r) + Discount * Value(t, Cell(cur.quarter, cur.side, next, actions[i])) - Value(t, cur))
                 && forall j :: 0 <= j < |actions| ==> Value(t, Cell(cur.quarter, cur.side, next, actions[j])) <= Value(t, Cell(cur.quarter, cur.side, next, actions[i]))
  {
  }

  /** The first update of a zero table sets the play's cell to the learning
      rate times the reward. */
  lemma FirstUpdate(actions: seq<string>, rw: Plays.Rewards, r: Plays.PlayRecord)
    requires Learnable(r, actions)
    ensures Value(Update(ZeroTable(actions), actions, rw, r), CurrentCell(r)) == LearningRate * PlayReward(rw, r)
  {
    var t := ZeroTable(actions);
    var cur := CurrentCell(r);
    var best := RowMax(t, actions, cur.quarter, cur.side, Successor(r));
    var i :| 0 <= i < |actions| && best == Value(t, Cell(cur.quarter, cur.side, Successor(r), actions[i]));
    assert best == 0.0;
    assert Value(t, cur) == 0.0;
  }

  /** No play starts in a terminal state, so terminal rows are never written. */
  lemma {:induction false} TerminalRowsUnchanged(t: map<Cell, real>, actions: seq<string>, rw: Plays.Rewards, data: seq<Plays.PlayRecord>)
    requires AllLearnable(data, actions)
    ensures forall c: Cell :: Terminal(c.state) ==> Value(Fill(t, actions, rw, data), c) == Value(t, c)
  {
    if data != [] {
      var prefix := data[..|data| - 1];
      LearnablePrefix(data, actions, |prefix|);
      TerminalRowsUnchanged(t, actions, rw, prefix);
      UpdateChangesOneCell(Fill(t, actions, rw, prefix), actions, rw, data[|data| - 1]);
    }
  }

  /** Every entry lies within [-b, b]. */
  predicate Within(t: map<Cell, real>, b: real) {
    0.0 <= b && forall c :: c in t ==> -b <= t[c] <= b
  }

  /** Every reward lies within (1 - Discount) * b of zero. */
  predicate RewardsWithin(rw: Plays.Rewards, b: real) {
    var r := (1.0 - Discount) * b;
    -r <= rw.turnover <= r && -r <= rw.negPlay <= r && -r <= rw.nextDown <= r
    && -r <= rw.firstDown <= r && -r <= rw.touchdown <= r
  }

  lemma ValueWithin(t: map<Cell, real>, b: real, c: Cell)
    requires Within(t, b)
    ensures -b <= Value(t, c) <= b
  {
  }

  /** The values stay within the bound of the rewards over one minus the
      discount: an update mixes the old value, the reward and a discounted
      value from the table. */
  lemma UpdateWithin(t: map<Cell, real>, actions: seq<string>, rw: Plays.Rewards, r: Plays.PlayRecord, b: real)
    requires Learnable(r, actions)
    requires Within(t, b) && RewardsWithin(rw, b)
    ensures Within(Update(t, actions, rw, r), b)
  {
    var cur := CurrentCell(r);
    var best := RowMax(t, actions, cur.quarter, cur.side, Successor(r));
    var i :| 0 <= i < |actions| && best == Value(t, Cell(cur.quarter, cur.side, Successor(r), actions[i]));
    ValueWithin(t, b, Cell(cur.quarter, cur.side, Successor(r), actions[i]));
    ValueWithin(t, b, cur);
    var rew := PlayReward(rw, r);
    assert -(1.0 - Discount) * b <= rew <= (1.0 - Discount) * b;
  }

  lemma {:induction false} FillWithin(t: map<Cell, real>, actions: seq<string>, rw: Plays.Rewards, data: seq<Plays.PlayRecord>, b: real)
    requires AllLearnable(data, actions)
    requires Within(t, b) && RewardsWithin(rw, b)
    ensures Within(Fill(t, actions, rw, data), b)
  {
    if data != [] {
      var prefix := data[..|data| - 1];
      LearnablePrefix(data, actions, |prefix|);
      FillWithin(t, actions, rw, prefix, b);
      UpdateWithin(Fill(t, actions, rw, prefix), actions, rw, data[|data| - 1], b);
    }
  }

  /** Every play of a team's data can be learned from with the team's own
      columns, once its downs and quarters are in range. */
  lemma DataLearnable(data: seq<Plays.PlayRecord>)
    requires forall i :: 0 <= i < |data| ==> 1 <= data[i].down <= 4 && ValidQuarter(data[i].quarter)
    ensures AllLearnable(data, Actions(data))
  {
    forall i | 0 <= i < |data| ensures Learnable(data[i], Actions(data)) {
      ActionsCover(data, i);
    }
  }

  // ---------------------------------------------------------------------
  // The learner

  /** The Q-learning decider for one team and one situation. */
  class QLearner {
    const data: seq<Plays.PlayRecord>
    const rewards: Plays.Rewards
    const quarter: int
    const currentDown: int
    const territory: string
    var actions: seq<string>
    var qTable: map<Cell, real>

    ghost predicate Valid()
      reads this
    {
      Distinct(actions) && Complete(qTable, actions) && 1 <= quarter <= 5 && 1 <= currentDown <= 4
    }

    constructor (reward: seq<real>, data: seq<Plays.PlayRecord>, quarter: int, down: int, fieldSide: string)
      requires |reward| >= 5 && 1 <= quarter <= 5 && 1 <= down <= 4
      requires forall i :: 0 <= i < |data| ==> 1 <= data[i].down <= 4 && ValidQuarter(data[i].quarter)
      ensures this.data == data && rewards == Plays.RewardsOf(reward)
      ensures this.quarter == quarter && currentDown == down && territory == fieldSide
      ensures actions == Actions(data)
      ensures AllLearnable(data, actions) && qTable == Fill(ZeroTable(actions), actions, rewards, data)
      ensures Valid()
    {
      this.data := data;
      rewards := Plays.RewardsOf(reward);
      this.quarter := quarter;
      currentDown := down;
      territory := fieldSide;
      new;
      MakeQTable();
    }

    /** Append the play type to each formation, in place. */
    static method Label(fs: seq<string>, pt: Plays.PlayType) returns (out: seq<string>)
      ensures out == Labelled(fs, pt)
    {
      out := fs;
      for i := 0 to |out|
        invariant |out| == |fs|
        invariant forall j :: 0 <= j < i ==> out[j] == fs[j] + Tag(pt)
        invariant forall j :: i <= j < |out| ==> out[j] == fs[j]
      {
        out := out[i := out[i] + Tag(pt)];
      }
    }

    /** make_Q_Table: the columns, ten zero tables, then the updates. */
    method MakeQTable()
      requires forall i :: 0 <= i < |data| ==> 1 <= data[i].down <= 4 && ValidQuarter(data[i].quarter)
      requires 1 <= quarter <= 5 && 1 <= currentDown <= 4
      modifies this
      ensures actions == Actions(data)
      ensures AllLearnable(data, actions) && qTable == Fill(ZeroTable(actions), actions, rewards, data)
      ensures Valid()
    {
      var passFormations := Label(Plays.UniqueFormations(data, Plays.Pass), Plays.Pass);
      var rushFormations := Label(Plays.UniqueFormations(data, Plays.Rush), Plays.Rush);
      actions := passFormations + rushFormations;
      qTable := ZeroTable(actions);
      ActionsDistinct(data);
      DataLearnable(data);
      FillQTable();
      FillComplete(ZeroTable(actions), actions, rewards, data);
    }

    /** fill_Q_Table: one update per play, in order. */
    method FillQTable()
      requires AllLearnable(data, actions)
      modifies this
      ensures actions == old(actions)
      ensures qTable == Fill(old(qTable), actions, rewards, data)
    {
      qTable := Learn(qTable, actions, rewards, data);
    }

    /** The update loop of fill_Q_Table over a table of values. */
    static method Learn(t: map<Cell, real>, actions: seq<string>, rewards: Plays.Rewards, data: seq<Plays.PlayRecord>)
      returns (table: map<Cell, real>)
      requires AllLearnable(data, actions)
      ensures table == Fill(t, actions, rewards, data)
    {
      table := t;
      LearnablePrefix(data, actions, 0);
      for i := 0 to |data|
        invariant AllLearnable(data[..i], actions)
        invariant table == Fill(t, actions, rewards, data[..i])
      {
        var each := data[i];
        LearnablePrefix(data, actions, i + 1);
        assert data[..i + 1][..i] == data[..i] && data[..i + 1][i] == each;
        var cur := CurrentCell(each);
        var next := Successor(each);
        var reward := PlayReward(rewards, each);
        var maxNextQ := RowMax(table, actions, cur.quarter, cur.side, next);
        var currentQ := Value(table, cur);
        table := table[cur := Learned(currentQ, reward, maxNextQ)];
      }
      assert data[..|data|] == data;
    }

    /** make_decision: the best column of the requested row and its value,
        the first column when several share the best value; None when the team
        has no plays. */
    function MakeDecision(): (r: Option<(string, real)>)
      reads this
      requires Valid()
      ensures r.None? <==> actions == []
      ensures r.Some? ==>
        var row := Row(qTable, actions, quarter - 1, SideIndex(territory), DownState(currentDown));
        exists k :: 0 <= k < |actions| && actions[k] == r.value.0 && row[k] == r.value.1
          && (forall j :: 0 <= j < |row| ==> row[j] <= row[k])
          && (forall j :: 0 <= j < k ==> row[j] < row[k])
    {
      if actions == [] then None
      else
        var row := Row(qTable, actions, quarter - 1, SideIndex(territory), DownState(currentDown));
        var k := FirstMax(row);
        Some((actions[k], row[k]))
    }
  }
}
