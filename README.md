# Football play decider, in Dafny

This project models the decision core of `Football_Play_Decider.py`, an
assistant coach agent. The agent takes a season of NFL play-by-play rows and
picks an offensive play for a situation: a quarter, a down, a team and a field
side. It works in three ways:

- a one-step Markov decision process (MDP) over per-formation outcome
  frequencies;
- a Q-learning table filled from all of the team's plays;
- a hidden Markov model (HMM) that generates a plausible drive of play results.

The modules follow the program's parts:

- `Util` (`util.dfy`): option and result types, the first-maximum index that
  both argmax steps use, and inverse-CDF weighted sampling as numpy's
  `random.choice` does it.
- `Plays` (`plays.dfy`): raw rows and the columns `markov_reorganize` and
  `q_reorganize` derive for each kept row: resulting down, turnover, negative
  play and yards-to-go bucket. It also holds the two row filters and the
  formation lists.
- `Mdp` (`mdp.dfy`): class `MDP`, with the rush and pass tables of outcome
  counts and probabilities, and the decision.
- `Hmm` (`hmm.dfy`): class `HMM`, with the transition and emission estimates
  and the drive generator. The random draws are passed in as uniforms in
  [0, 1).
- `QLearning` (`qlearning.dfy`): class `QLearner`, with the action columns,
  ten Q tables (5 quarters × 2 field sides) held in one map, the update rule,
  and the greedy decision.

## Behaviour the model follows

Several results of the code differ from what its column names and comments
suggest. The model follows the code in each case below.

- **Yards-to-go bucket.** The code writes the buckets Short, Medium and Long
  in turn, so Medium overwrites Short. A
  row ends up Medium when it has at most 10 yards to go, and Long otherwise
  (`Plays.YardsToGoBucket`).
- **Failed fourth down.** By this point the resulting-down column holds text,
  and the fourth-down corrections compare it with the integer 5. They never
  apply.
  - A failed fourth down keeps the label 5, and no row is labelled TO
    (`Plays.FailedFourthDownKeepsFive`).
  - The MDP and the HMM count such a play as a next down.
  - Q-learning counts it as a turnover (`QLearning.FailedFourthDownIsTurnover`).
- **Outcomes that overlap.** First down, next down, touchdown and turnover
  are not mutually exclusive, and their probabilities can add up to more
  than 1: an interception short of the line to gain counts as both a
  next down and a turnover (`Mdp.ExclusiveOutcomesCanExceedTotal`). The bound
  that does hold is that first down plus next down is at most 1.
- **Hidden state.** A transition is counted in the row of the play it leads
  to, so the generator can never leave the play type of the first draw.
  - The off columns are zero (`Hmm.EstimatedTransitionRows`), and a drive
    keeps its first play type (`Hmm.DriveKeepsFirstState`).
  - The generator renormalises two entries of the current play type's row:
    the entry for staying and the off column. Both are zero when every
    transition into that play type came from the other one. Renormalising
    then divides 0 by 0, which the model reports as `InsufficientData`.
- **Drive length.** A generated drive has 2 to 16 observations, not 1 to 16.
  The loop always draws at least once more, even after a first-draw
  touchdown.

## Model

| member | source | states |
|---|---|---|
| Util.FirstMax | Football_Play_Decider.py:287-292 | the returned index holds a value at least every other value, and every earlier value is strictly smaller (first entry wins ties) |
| Util.Pick | Football_Play_Decider.py:394-417 | a weighted draw with a uniform below the total weight returns an index of positive weight |
| Util.PickBrackets | Football_Play_Decider.py:394-417 | the index Pick returns is the one whose cumulative weight range holds the uniform: the weights before it sum to at most the uniform, and with it to more |
| Plays.PlayTypeOf | Football_Play_Decider.py:32-39 | a row is kept as a pass exactly when its play type is PASS and as a rush exactly when it is RUSH; a missing or any other play type is dropped |
| Plays.QuarterLabelOf | Football_Play_Decider.py:34-35 | quarter 5, and no other, is written OT; every other quarter keeps its number |
| Plays.YardsToGoBucket | Football_Play_Decider.py:70-73 | the bucket is never Short or unset; it is Medium exactly when ToGo ≤ 10 and Long exactly when ToGo > 10 |
| Plays.NextDownLabel | Football_Play_Decider.py:50-55 | the label is TD exactly when IsTouchdown is 1; otherwise 1 when Yards ≥ ToGo and Down + 1 when short; never TO |
| Plays.TurnoverFlag | Football_Play_Decider.py:41-55 | a row is a turnover exactly when its interceptions plus fumbles are not 0, since no row is labelled TO |
| Plays.Derive | Football_Play_Decider.py:35-77 | copies team, down, yard line, play type and formation, writes quarter 5 as OT and other quarters as numbers, sets the yards-to-go bucket of ToGo and the resulting-down label of the row; touchdown iff IsTouchdown is 1; turnover iff interceptions plus fumbles ≠ 0; negative iff a sack or lost yards; the record is well formed |
| Plays.FailedFourthDownKeepsFive | Football_Play_Decider.py:51-55 | a fourth down that falls short keeps label 5 and is a turnover only when the ball was intercepted or fumbled |
| Plays.OtherQuarter | Football_Play_Decider.py:19-22 | quarters 1 to 4 are pooled with the other quarter of the same half; OT is pooled with quarter 4 |
| Plays.Keep | Football_Play_Decider.py:19-39 | a row is kept exactly when its team, down and side match and its quarter is the requested one or its partner (Situation), or its team matches (TeamOnly), and its play type is PASS or RUSH; a kept record matches the query, is well formed and has the row's play type |
| Plays.Reorganize | Football_Play_Decider.py:13-155 | the output is no longer than the input, and every output record matches the query (team; and down, side, and the quarter or its partner quarter) and is well formed |
| Plays.ReorganizeAppend | Football_Play_Decider.py:25-39 | filtering a concatenation is the concatenation of the filtered parts, so kept rows stay in input order |
| Plays.ReorganizeKeeps | Football_Play_Decider.py:25-39 | every kept row appears in the output after the rows kept before it and before the rows kept after it |
| Plays.UniqueFormations | Football_Play_Decider.py:466-473 | the list holds each formation seen with the play type exactly once and nothing else, in order of first appearance: of two listed formations, the earlier one first appears (Plays.FirstIndex) in an earlier row |
| Plays.FormationsSnoc | Football_Play_Decider.py:466-473 | one more row adds its formation, if of the play type, first seen at its own index, and leaves every earlier formation's first index unchanged |
| Mdp.CountBounded | Football_Play_Decider.py:192-205 | no outcome count exceeds the total, first down plus next down is at most the total, and the total is positive exactly when the formation was played with the play type |
| Mdp.Tally | Football_Play_Decider.py:194-205 | one play adds one to the total, and one to each outcome column (Mdp.Column) whose own test it passes and to no other: first down for label 1, next down for a label other than 1, TD and TO, and the touchdown, turnover and negative-play columns for their flags (Mdp.Tallied); it keeps the counts within the total, and on a derived play adds exactly one to first down plus next down plus touchdown |
| Mdp.Count | Football_Play_Decider.py:192-205 | a formation's total is at most the number of plays |
| Mdp.CountColumns | Football_Play_Decider.py:192-205 | each outcome column of a formation's counts is the number of plays of that play type and formation that the column's test (Mdp.Tallied) accepts |
| Mdp.CountPrefixColumns | Football_Play_Decider.py:192-205 | the same for the counts of every prefix of the plays |
| Mdp.CountTotal | Football_Play_Decider.py:192-205 | a formation's TotalPlays is the number of plays with that play type and formation |
| Mdp.CountPartition | Football_Play_Decider.py:192-205 | on derived records, first down, next down and touchdown counts add up to the total |
| Mdp.ExclusiveOutcomesCanExceedTotal | Football_Play_Decider.py:197-202 | a single interception short of the line counts as a next down and as a turnover, so the four outcomes sum to 2 for 1 play |
| Mdp.ProbabilitiesBounded | Football_Play_Decider.py:207-212 | every probability Mdp.Probabilities computes (count over total) is in [0, 1] and P(first down) + P(next down) ≤ 1 |
| Mdp.CountPlays | Football_Play_Decider.py:193-205 | the counting loop ends with the formation's counts as the recursive tally defines them |
| Mdp.Tabulate | Football_Play_Decider.py:186-240 | one row per listed formation in list order, holding its counts, a positive total and the counts over the total, all probabilities in [0, 1] |
| Mdp.MDP.constructor | Football_Play_Decider.py:167-182 | stores the data and reward vector and leaves both tables describing the data |
| Mdp.MDP.Calculate | Football_Play_Decider.py:186-245 | the rush and pass tables describe the data for their formation lists |
| Mdp.Entry | Football_Play_Decider.py:263-283 | a candidate's value is the outcome probability times the outcome's reward, since the next-state value is 0 |
| Mdp.TableCandidates | Football_Play_Decider.py:262-284 | five candidates per formation row |
| Mdp.CandidateAt | Football_Play_Decider.py:262-284 | the candidate at 5·j + k of Mdp.Candidates (rush table first, then pass, each built by Mdp.RowCandidates) is formation j's entry for the k-th outcome, in the order first down, next down, touchdown, turnover, negative play |
| Mdp.EntryAtMostTouchdown | Football_Play_Decider.py:263-283 | when the touchdown reward is positive and larger than every other reward, no entry exceeds it |
| Mdp.CandidatesAtMostTouchdown | Football_Play_Decider.py:262-284 | the same bound over a whole table, under the same condition on the rewards |
| Mdp.TouchdownCertainRushWins | Football_Play_Decider.py:254-296 | if the first rush formation always scores and the touchdown reward is largest, the decision is "Rush to touchdown" in that formation |
| Mdp.RunningMax | Football_Play_Decider.py:287-296 | None only for an empty list; otherwise the first entry of largest value, at least every value, strictly above every earlier one |
| Mdp.MDP.Decision | Football_Play_Decider.py:254-296 | None exactly when there are no candidates; otherwise the first candidate of largest value, rush before pass, and at least every candidate |
| Hmm.TransitionShape | Football_Play_Decider.py:326-343 | the PASS row holds only Pass-Pass and Rush-Pass, the RUSH row only Pass-Rush and Rush-Rush, each row's columns sum to its total, and the totals count every consecutive pair |
| Hmm.AddTransition | Football_Play_Decider.py:331-343 | a transition from prev to cur adds one to cur's row total and one to the column for that pair (Pass-Pass or Rush-Pass in the PASS row, Pass-Rush or Rush-Rush in the RUSH row); every other column and the other row are unchanged |
| Hmm.Transitions | Football_Play_Decider.py:326-343 | the two row totals together count every consecutive pair of plays |
| Hmm.TransitionColumns | Football_Play_Decider.py:326-343 | each transition column (Hmm.TransitionCount, in the row of the second play type) is the number of plays i after the first whose play is of the second type and whose predecessor is of the first (Hmm.Follows) |
| Hmm.TransitionPrefixColumns | Football_Play_Decider.py:326-343 | the same for the transition counts of every prefix of the plays |
| Hmm.TransitionStep | Football_Play_Decider.py:331-343 | the last pair of a prefix adds one to its own column and nothing to any other |
| Hmm.ObservedOutcome | Football_Play_Decider.py:346-355 | first down exactly for label 1; next down exactly for any other numbered label; for a TD or TO label: touchdown exactly for a scoring play, turnover exactly for a non-scoring turnover, negative play exactly for a non-scoring, non-turnover negative play, and no observation exactly when none of the three flags is set |
| Hmm.AddEmission | Football_Play_Decider.py:346-357 | one play adds one to its row's total and one to the column of its observation, if it has one, and to no other column; it keeps the columns within the total |
| Hmm.Emissions | Football_Play_Decider.py:346-357 | the two row totals together count every play |
| Hmm.EmissionColumns | Football_Play_Decider.py:346-357 | each observation column of a play type's row is the number of plays of that type whose observation (Hmm.ObservedOutcome) is that column |
| Hmm.EmissionPrefixColumns | Football_Play_Decider.py:346-357 | the same for the observation counts of every prefix of the plays |
| Hmm.EmissionStep | Football_Play_Decider.py:346-357 | the last play of a prefix adds one to the column of its observation in its own row and nothing to any other column |
| Hmm.TransitionTotal | Football_Play_Decider.py:326-343 | a row's total is positive exactly when a play after the first has that play type |
| Hmm.ObservedOutcomeOfWellFormed | Football_Play_Decider.py:346-357 | a derived play always gets an observation, only first down, next down or touchdown, and touchdown exactly when it scored |
| Hmm.AddEmissionKeeps | Football_Play_Decider.py:346-357 | one derived play keeps the observation counts partitioned among first down, next down and touchdown |
| Hmm.EmissionBounds | Football_Play_Decider.py:346-357 | no play is counted in more than one observation column of its row |
| Hmm.EmissionPartition | Football_Play_Decider.py:346-357 | on derived plays the first-down, next-down and touchdown columns add up to the total and the turnover and negative-play columns are 0 |
| Hmm.EmissionTotal | Football_Play_Decider.py:346-357 | an observation row's total is positive exactly when a play has that play type |
| Hmm.EstimatedTransitionRows | Football_Play_Decider.py:359-365 | the rows Hmm.EstimatedTransitions normalises are nonnegative, the off columns are 0, and each row's two remaining columns sum to 1 |
| Hmm.NormalizeTransitions | Football_Play_Decider.py:359-365 | dividing a row of transition counts by its total gives nonnegative entries, each 0 exactly when its count is 0 |
| Hmm.NormalizeEmissions | Football_Play_Decider.py:367-373 | dividing a row of observation counts by its total gives nonnegative entries, each 0 exactly when its count is 0 |
| Hmm.EstimatedEmissionRows | Football_Play_Decider.py:367-373 | on derived plays each observation row of Hmm.EstimatedEmissions is a distribution with no weight on turnover or negative play |
| Hmm.HMM.constructor | Football_Play_Decider.py:305-310 | stores the data and leaves the estimated tables in place |
| Hmm.HMM.Calculate | Football_Play_Decider.py:312-380 | the tables are the loop's counts divided by their totals, which are the estimated tables; they are valid distributions of the right shape |
| Hmm.HMM.CountData | Football_Play_Decider.py:326-357 | the counting loop ends with the transition counts of every consecutive pair of plays and the observation counts of every play |
| Hmm.DrawOutcome | Football_Play_Decider.py:396 | the drawn observation has positive probability |
| Hmm.DrawState | Football_Play_Decider.py:406-413 | the drawn next state has positive weight from the current one |
| Hmm.Weight | Football_Play_Decider.py:406-411 | the weight of a move read from the current state's row is nonnegative, and 0 between different play types once the off columns are 0 |
| Hmm.InitialState | Football_Play_Decider.py:394 | the fair first draw is RUSH exactly when the uniform is below 0.5 |
| Hmm.Advance | Football_Play_Decider.py:397-400 | the down counter stays in 1..4; it is 1 exactly after a first down, or when it was 1 and no next down came; a next down advances it below fourth down and keeps it at 4 on fourth down; touchdown, turnover and negative play leave it unchanged |
| Hmm.Redraw | Football_Play_Decider.py:413-417 | the rejection loop from draw j uses at least one draw and no more than there are |
| Hmm.RedrawShape | Football_Play_Decider.py:413-417 | the rejection loop gives nothing exactly when the draws left run out before an observation allowed at the current down; otherwise the observation of the last draw it used, every earlier draw a NextDown at fourth down, and exactly one draw when it is not fourth down |
| Hmm.DrawAllowed | Football_Play_Decider.py:413-417 | the loop computes the rejection loop Hmm.Redraw from draw j: None exactly when the draws left run out before an allowed observation; otherwise the observation of the last draw used, with every earlier draw of this step a rejected NextDown at fourth down, of positive probability, and never NextDown at fourth down |
| Hmm.DownAfter | Football_Play_Decider.py:392-421 | the down counter stays in 1..4 |
| Hmm.ConsistentDowns | Football_Play_Decider.py:414-421 | in a possible drive no next down follows a fourth down |
| Hmm.ConsistentObservations | Football_Play_Decider.py:396-413 | in a possible drive every observation has positive probability in its hidden state |
| Hmm.ConsistentTransitions | Football_Play_Decider.py:406-413 | in a possible drive every hidden state follows the previous one with positive weight |
| Hmm.ConsistentExtend | Football_Play_Decider.py:413-423 | appending a possible step to a possible partial drive gives a possible drive that keeps its first observation and state, whose down counter is advanced by the new observation, and that has no inner touchdown when the new observation is not one |
| Hmm.HMM.FirstDraw | Football_Play_Decider.py:394-396 | fewer than two draws is an error; otherwise the first observation has positive probability in the first hidden state |
| Hmm.StepOf | Football_Play_Decider.py:406-417 | one loop step uses at least two draws and no more than there are |
| Hmm.StepOfShape | Football_Play_Decider.py:406-417 | InsufficientData exactly when the two renormalised weights of the current state sum to 0; OutOfDraws exactly when they do not and no draw is left for the next state or the rejection loop gets nothing; otherwise the next state is the draw of u[k] from the current row, with positive weight, and the observation the draw of the last draw used, every earlier draw of the step a NextDown at fourth down, of positive probability, never NextDown at fourth down |
| Hmm.HMM.Step | Football_Play_Decider.py:406-417 | computes one loop step Hmm.StepOf, with the same errors and result as Hmm.StepOfShape states |
| Hmm.RunErrors | Football_Play_Decider.py:403-426 | the loop fails only with OutOfDraws or InsufficientData, and with InsufficientData exactly when the current state's renormalised weights sum to 0 |
| Hmm.RunEnds | Football_Play_Decider.py:403-426 | the loop extends a partial drive by at least one step while steps are left, to at most 16 observations, one hidden state each, keeping the first observation and state |
| Hmm.RunTouchdowns | Football_Play_Decider.py:403-426 | the loop leaves no touchdown inside a drive, ends it on a touchdown when it is shorter than 16, and sets the report flag to the corrected report condition |
| Hmm.RunConsistent | Football_Play_Decider.py:403-426 | every step the loop adds to a possible partial drive keeps it possible |
| Hmm.OpeningConsistent | Football_Play_Decider.py:394-400 | the first observation, drawn with positive probability, makes a possible drive of one step |
| Hmm.GenerateShape | Football_Play_Decider.py:386-426 | the drive Hmm.Generate computes from the draws: fewer than two draws is OutOfDraws; InsufficientData exactly when the first state's renormalised weights sum to 0; otherwise 2 to 16 observations with one hidden state each, the first state the fair draw and the first observation drawn from its row, no touchdown strictly inside, a touchdown last when shorter than 16, every step possible, and the report flag set exactly when the drive does not end on a touchdown |
| Hmm.HMM.GenerateDrive | Football_Play_Decider.py:386-426 | computes exactly Hmm.Generate of the draws, so it has every property Hmm.GenerateShape states |
| Hmm.HMM.DriveFrom | Football_Play_Decider.py:403-426 | the loop from a first state and observation computes the run Hmm.Run of the draws from index 2: InsufficientData exactly when the first state's renormalised weights sum to 0; otherwise the same drive properties as GenerateDrive, starting from the given state and observation |
| Hmm.HMM.RunLoop | Football_Play_Decider.py:403-426 | the 15-step loop with its touchdown break computes the run Hmm.Run of the draws from index 2 |
| Hmm.StateNeverChanges | Football_Play_Decider.py:406-413 | when no row can be left, every state of a sequence of possible transitions is its first |
| Hmm.DriveKeepsFirstState | Football_Play_Decider.py:406-413 | every possible drive under the estimated tables keeps the play type of its first draw |
| Hmm.UnlikelyMessageNeverShown | Football_Play_Decider.py:431-434 | the length-15 report condition is false for every drive the generator can produce |
| Hmm.UnlikelyMessageMissesFullDrive | Football_Play_Decider.py:431-434 | a 16-long drive without a touchdown gets no report as written, though it is what the report is about |
| Hmm.TouchdownNotReachedExactly | Football_Play_Decider.py:431-434 | the corrected condition holds exactly when a generated drive does not end on a touchdown |
| QLearning.DownState | Football_Play_Decider.py:443 | downs 1, 2, 3 and 4 map to FirstDown, SecondDown, ThirdDown and FourthDown, none of them terminal |
| QLearning.NextState | Football_Play_Decider.py:521-532 | labels 1 to 4 map to their down states, TD to Touchdown, anything else (5 included) to Turnover, never NegativePlay |
| QLearning.FailedFourthDownIsTurnover | Football_Play_Decider.py:521-532 | label 5 is the Turnover state with the turnover reward |
| QLearning.Labelled | Football_Play_Decider.py:466-475 | one column name per formation |
| QLearning.ActionsDistinct | Football_Play_Decider.py:464-478 | the columns QLearning.Actions builds (pass formations, then rush formations, each tagged) are all different |
| QLearning.ActionsCover | Football_Play_Decider.py:464-478 | every play's formation-and-type (QLearning.ActionOf) is a column |
| QLearning.ActionsFromData | Football_Play_Decider.py:464-478 | every column is the action of some play |
| QLearning.CellsExactly | Football_Play_Decider.py:484-500 | the cells are exactly the (quarter < 5, side < 2, any state, a column) combinations |
| QLearning.ZeroTable | Football_Play_Decider.py:484-500 | the initial table has exactly the cells of the ten tables, all 0 |
| QLearning.RowMax | Football_Play_Decider.py:548 | the maximum of a state's row (its value in each column, in column order) is the value of some column and at least every column's value |
| QLearning.QuarterIndex | Football_Play_Decider.py:517 | OT selects the last of five tables and quarter n the table n − 1 |
| QLearning.QuarterIndexOfLabel | Football_Play_Decider.py:517-566 | a play of quarter n is learned into table n − 1, the table the decision for quarter n reads, and different quarters use different tables |
| QLearning.CurrentCell | Football_Play_Decider.py:517-540 | the cell a play updates is the non-terminal row of its down, in the table of its quarter, on side 0 exactly for OWN, at the play's action column |
| QLearning.SideIndex | Football_Play_Decider.py:534 | the side index is 0 or 1, and 0 exactly for OWN |
| QLearning.Successor | Football_Play_Decider.py:521-546 | NegativePlay exactly for a negative play; otherwise the state of the play's label, Touchdown exactly for TD |
| QLearning.StateReward | Football_Play_Decider.py:455 | first down gets the first-down reward, the three later downs share the next-down reward, Touchdown and Turnover get their own |
| QLearning.PlayReward | Football_Play_Decider.py:542-546 | a negative play gets the negative-play reward; any other play the reward of the state it moves into |
| QLearning.Update | Football_Play_Decider.py:536-550 | an update writes one key, the play's cell, which is a cell of the ten tables |
| QLearning.Fill | Football_Play_Decider.py:516-550 | filling only adds keys, and every added key is a non-terminal cell of the ten tables |
| QLearning.CurrentCellPresent | Football_Play_Decider.py:540 | the cell a play updates exists in every complete table |
| QLearning.UpdateComplete | Football_Play_Decider.py:536-550 | an update keeps exactly the same cells |
| QLearning.FillComplete | Football_Play_Decider.py:516-550 | filling with any learnable plays keeps exactly the same cells |
| QLearning.UpdateChangesOneCell | Football_Play_Decider.py:536-550 | a play changes only its (quarter, side, down state, action) cell, by the learning rate times reward plus discounted row maximum of the next state minus the old value (QLearning.Learned); that cell is never terminal |
| QLearning.FirstUpdate | Football_Play_Decider.py:536-550 | from a zero table, the first update sets the cell to 0.3 × reward |
| QLearning.TerminalRowsUnchanged | Football_Play_Decider.py:504-550 | the Touchdown, Turnover and NegativePlay rows are never written |
| QLearning.UpdateWithin | Football_Play_Decider.py:549 | if every value is within b and every reward within 0.6·b, the update stays within b |
| QLearning.FillWithin | Football_Play_Decider.py:516-550 | the same bound holds after all plays |
| QLearning.DataLearnable | Football_Play_Decider.py:516-540 | with downs 1 to 4 and valid quarters, every play of the data can update the team's own columns |
| QLearning.QLearner.constructor | Football_Play_Decider.py:448-457 | columns are the data's actions and the table is the zero table filled with every play in order |
| QLearning.QLearner.Label | Football_Play_Decider.py:468-475 | the in-place loop appends the play type to every formation |
| QLearning.QLearner.MakeQTable | Football_Play_Decider.py:464-502 | pass columns then rush columns, then the filled table, which is complete |
| QLearning.QLearner.FillQTable | Football_Play_Decider.py:508-550 | the table becomes the old table updated with every play in order |
| QLearning.QLearner.Learn | Football_Play_Decider.py:516-550 | the update loop computes the table filled with every play in order |
| QLearning.QLearner.MakeDecision | Football_Play_Decider.py:562-568 | None exactly when there are no columns; otherwise a column and value with the value at least every value of the requested row (table quarter − 1, side 0 exactly for OWN, the row of the down) and strictly above every earlier column's |

## Left out

- `main()` (reading the CSV, prompting, validating the input, printing) is
  I/O and is not modelled.
- Sorting by game, quarter and clock is not modelled: the rows are taken
  already in game order. The MDP's formation lists are an input for the same
  reason. They come from a sort by quarter whose stability is library
  behaviour, so the model only requires that each list names every formation
  of its play type once.
- numpy's random number generator is not modelled. Each draw is a uniform in
  [0, 1), supplied by the caller, and turned into a choice by inverse CDF.
  The model makes no claim about distributions. The rejection loop consumes
  draws, and running out gives `OutOfDraws`.
- Floating point is not modelled: probabilities and Q-values are `real`.
  - NaN from 0/0 is excluded by preconditions in the MDP (every listed
    formation was played) and in the HMM (both play types occur after the
    first play).
  - In the drive generator, a 0/0 row gives `InsufficientData`.
- The printed drive and messages are not modelled. The condition behind the
  "unlikely" message is modelled (see Findings).
- Not modelled because they do not affect any result: the fixed reward
  fields of `MDP`, the unused `q` and `FD_next` variables, the stored quarter
  of `MDP` and `HMM`, and the commented-out code.
- QLearning.QLearner.constructor: requires every record's down in 1..4 and
  quarter in 1..4 or OT. Any other down is a missing key of the down
  dictionary, and the source fails on it. A quarter above 5 indexes past the
  five tables and fails. A quarter from 0 down to -4 does not fail: it is a
  negative Python list index and reads another quarter's table from the end
  (quarter 0 reads the OT table). The model does not reproduce that aliasing.
- Mdp.MDP.Decision and QLearning.QLearner.MakeDecision: return None where the
  source fails, on an empty candidate list and on an empty row respectively.
- Count: its own ensures only bounds the total by the number of plays. What
  each column counts is proved separately in Mdp.CountColumns, which keeps
  the recursive definition cheap for the proofs that unfold it.
- Transitions: its own ensures only gives the sum of the two row totals. What
  each column counts is proved separately in Hmm.TransitionColumns, for the
  same reason.
- Emissions: its own ensures only gives the sum of the two row totals. What
  each column counts is proved separately in Hmm.EmissionColumns, for the
  same reason.
- Hmm.HMM.constructor: requires derived records and both play types after the
  first play. This excludes the 0/0 rows the source would turn into NaN.

## Findings

| source | as written | input that shows it | evidently intended | confidence | as-written member | corrected member |
|---|---|---|---|---|---|---|
| Football_Play_Decider.py:431-434 | the "Touchdown unlikely" message is printed when the drive has 15 observations and the 15th is not a touchdown | any drive with no touchdown runs all 15 loop steps and has 16 observations, for example 16 first downs; a drive of 15 can only end on the touchdown break | report when the drive used every step without ending on a touchdown (16 observations, the last not a touchdown) | not executed | Hmm.UnlikelyMessageAsWritten (Hmm.UnlikelyMessageNeverShown, Hmm.UnlikelyMessageMissesFullDrive) | Hmm.TouchdownNotReached (Hmm.TouchdownNotReachedExactly; the flag Hmm.HMM.GenerateDrive returns) |
