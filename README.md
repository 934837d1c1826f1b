# Cricket scorer — a verified model

This project models a single-device cricket scorer written in React and TypeScript.

- **The reducer.** `gameReducer` takes the match from setup, through the toss and two innings, to a result. It handles each delivery button (runs, wide, no-ball, wicket) and applies the game's rules:
  - the free hit after a no-ball;
  - strike rotation;
  - six-ball overs;
  - all out at `playersPerTeam - 1` wickets;
  - the chase target;
  - the result and its margin.
- **The screens.** The screens around the reducer derive everything else from the game state:
  - the statistics tables;
  - the over-by-over history;
  - the player breakdowns;
  - the wagon wheel and shot map;
  - the match summary;
  - the commentary line;
  - the scoring screen's bowler chooser and "This Over" strip;
  - the setup form.

The model is written in Dafny.

- **Game state.** The game state and its parts are immutable datatypes (`types.dfy`).
- **Reducer.** The reducer is a total function, `Reducer.GameReducer`, that returns `Next(state)`. Where the JavaScript would throw a `TypeError` it returns `Crashed(fault)` instead, for example when a `find(...)!` fails or a side has fewer than two players.
- **Delivery case.** The delivery case of the source works step by step on deep copies. It is modelled by the imperative `Reducer.ApplyDelivery` and `Reducer.PlayBall`, which are proved equal to the functional `Reducer.Deliver` and `Reducer.Play`. Every property of the game is then proved about those functions.
- **Imperative screen code.** Screens that fill a map in a loop are modelled with `while` loops proved against specification functions:
  - ScoreHistory's `calculateOverSummaries`;
  - PlayerDetailView's breakdowns.
- **Setup form.** The setup form is a class whose methods update its fields.

Each innings' `overs` count is kept as a pair: completed overs as a `nat`, next to `ballsInOver`. The source encodes both in one float, `overs + ballsInOver / 10`.

In every state the reducer reaches, an invariant holds (`MatchInvariant.StateConsistent`):

- each innings' score is the sum of its timeline;
- its over count is the number of legal balls;
- its balls are numbered and tagged with their over;
- no side loses more wickets than the all-out mark.

Two behaviours of the code that are easy to misread:

- **Extras.** An `ADD_EXTRA` of `r` runs keeps `r` as bat runs *and* adds `1 + r` extras, so it is worth `2r + 1` (App.tsx:133, 137, 160). For example, a wide with two runs adds five, not the 1 + r a reader might expect.
- **Runs margin.** The runs margin is `target - score` (App.tsx:236), which is one more than the difference of the two innings' scores.

## Model

| member | source | states |
|---|---|---|
| Text.NatToString | App.tsx:51 | The decimal text of a number: at least one digit, all digits, no leading zero. |
| Text.IntToString | App.tsx:228 | An integer's text is its digits, after a minus sign when it is negative. |
| Text.DigitsValueOfNatToString | App.tsx:51 | Reading the decimal text back gives the number (the inverse of `${n}`). |
| Text.NatToStringInjective | App.tsx:51 | Different numbers have different texts. |
| Text.PlayerLabel | App.tsx:51 | The default name is "Player " followed by digits whose value is i+1. |
| Types.StatusOrdinalIsBijective | types.ts:55-61 | There are exactly five statuses, numbered 0..4 in declaration order, one-to-one. |
| Types.StatusOf | types.ts:55-61 | Each ordinal below five names the status with that ordinal. |
| Types.AllBalls | components/WagonWheel.tsx:29-30 | `innings.flatMap(inn => inn?.timeline \|\| [])`: first innings' balls, then the second's once it exists. |
| Overs.FormatOversRoundTrip | components/PlayerStats.tsx:16-20 | The "O.B" overs text parses back to the ball count, and its last digit is balls mod 6, which is below six. ScoringScreen.tsx:20-24 and PlayerDetailView.tsx:70-74 define the same formatter. |
| Overs.FirstDot | components/PlayerStats.tsx:19 | The index found is the first '.' of the text, or its length when there is none. |
| Reducer.FindPlayer | App.tsx:156-157 | `find(p => p.id === id)`: the index of the first player with that id, or none when no player has it. |
| Reducer.FindNextBatsman | App.tsx:178 | The first player who is neither out nor batting, or none when there is no such player. |
| Reducer.SetPlayer | App.tsx:173-176 | Replacing one player puts the new record at that position, keeps every team's name and roster size, and leaves every other player of every team as it was. |
| Reducer.Ledger | App.tsx:160-167 | Charging the bowler and crediting the striker keeps every team's name and roster size, and leaves every player other than those two as they were. |
| Reducer.ScorePlayers | App.tsx:159-167 | The imperative scoring step equals the functional ledger, and it sets the event to six, four or none by the bat runs. |
| Reducer.DismissStriker | App.tsx:170-184 | The imperative dismissal equals the functional one, including the incoming batsman and the next striker. |
| Reducer.ProgressOver | App.tsx:190-206 | Over progression: the imperative step matches `Advance` and changes only the over fields. A no-ball grants a free hit, a legal ball uses it up, and a wide keeps it. |
| Reducer.JudgeOutcome | App.tsx:216-239 | The imperative end-of-innings and result logic equals `Evaluate`. |
| Reducer.ApplyDelivery | App.tsx:112-255 | The delivery case, run step by step on copies, gives exactly `Deliver(state, action)`: the guards, the throws on a missing striker or bowler, and the new state. |
| Reducer.PlayBall | App.tsx:126-254 | The accepted-delivery body, executed imperatively with in-place player updates, equals the functional `Play`. |
| ReducerProperties.StrikerAt | App.tsx:156 | A scoring delivery has found the striker in the batting side. |
| ReducerProperties.BowlerAt | App.tsx:157 | A scoring delivery has found the current bowler in the bowling side. |
| ReducerProperties.ScoredIsPlay | App.tsx:154-157 | A delivery that scores is `Play` with the normalised delivery at the striker's and bowler's positions. |
| ReducerProperties.DeliveryNoOpIffRejected | App.tsx:118-124 | A delivery returns the same state exactly when a guard turns it away: not in progress, no bowler, no settings, no current innings, or all out. |
| ReducerProperties.AllOutIsAbsorbing | App.tsx:122-123 | Once the current innings is all out, any sequence of deliveries leaves the state unchanged. |
| ReducerProperties.NormaliseFacts | App.tsx:132-139 | Delivery normalisation: a wicket carries no runs and is legal; runs are bat runs only; an extra's extraRuns are 1+runs; a ball is illegal exactly for "wd" and "nb". |
| ReducerProperties.ScoredInnings | App.tsx:160-206 | Per delivery: the score rises by runs+extras and wickets by the dismissals; the timeline grows by the numbered ball; the overs advance; the other innings is untouched. |
| ReducerProperties.ScoredKeepsRoles | App.tsx:241-254 | A delivery keeps the settings, the innings number, the sides' roles, the bowler, and the toss fields. |
| ReducerProperties.OverProgression | App.tsx:191-202 | An extra leaves the over count alone; the sixth legal ball completes the over and resets `ballsInOver`; a legal ball adds exactly one to 6·overs+balls. |
| ReducerProperties.FreeHitRule | App.tsx:192-206 | A no-ball sets the free hit; a legal ball clears it; a wide keeps it. |
| ReducerProperties.ExtraRunsCountTwice | App.tsx:133-137 | An extra of r runs adds 2r+1 to the innings score. |
| ReducerProperties.PlayerLedger | App.tsx:160-176 | The bowler's and the striker's new counters, field by field. The ball count rises iff the ball is legal, fours and sixes by the bat runs, and a dismissal marks the striker out. The rest of the roster is covered by `ReducerProperties.OtherPlayersUnchanged`. |
| ReducerProperties.PlayTeams | App.tsx:159-184 | A scored delivery's rosters are the ledger's, followed by the dismissal unless the wicket fell on a free hit. |
| ReducerProperties.DismissalFrame | App.tsx:170-184 | A dismissal changes only the bowler, the striker and the incoming batsman, and the incoming batsman only in being marked as batting. |
| ReducerProperties.RosterFrame | App.tsx:156-184 | The ledger, with or without the dismissal, leaves every player except the bowler, the striker and the incoming batsman unchanged; the incoming batsman is only marked as batting. |
| ReducerProperties.OtherPlayersUnchanged | App.tsx:156-184 | After any scored delivery, every player of both sides other than the bowler and the striker keeps their record. The one exception is the incoming batsman after a dismissal, who is only marked as batting. |
| ReducerProperties.WicketBringsNextBatsman | App.tsx:170-184 | A wicket off a fair ball adds one wicket and brings in the first available player as striker, who is then swapped to the other end if the over ended. |
| ReducerProperties.FindNextBatsmanAgrees | App.tsx:178 | The incoming batsman depends only on who is available. |
| ReducerProperties.FreeHitWicketSuspended | App.tsx:170-184 | A wicket on a free hit is recorded but does not count: no wicket, the striker is not out, and the bowler is not credited. |
| ReducerProperties.NoBallThenWicket | App.tsx:172-205 | A wicket on the ball after a no-ball leaves the wicket tally where it was. |
| ReducerProperties.StrikeRotation | App.tsx:208-214 | The batsmen swap ends iff exactly one of "odd runs" and "over finished" holds. |
| ReducerProperties.OddRunsOnLastBallKeepStrike | App.tsx:209-214 | Odd runs off the last ball of an over leave the striker on strike. |
| ReducerProperties.FirstInningsEnd | App.tsx:217-222 | In the first innings, all out or the overs used up means the innings break and a target of score+1; otherwise play continues with the target unchanged. |
| ReducerProperties.SecondInningsResult | App.tsx:223-239 | In the second innings there are four outcomes: target reached means a win by wickets; all out or overs done one short of the target means a tie; all out or overs done otherwise means a win by runs; otherwise play continues. |
| ReducerProperties.DismissalKeepsNames | App.tsx:173-182 | A dismissal keeps every team's name and roster size. |
| ReducerProperties.WicketsMarginNonNegative | App.tsx:228 | A wickets margin is never negative. |
| ReducerProperties.RunsMarginCountsTargetRun | App.tsx:231-236 | With target = first score + 1, a tie means equal scores, and a runs margin is the score difference plus one. |
| ReducerProperties.StartMatchRosters | App.tsx:46-70 | A new match is in the toss with the given settings and two fresh rosters. Team two's ids follow team one's, and an empty name becomes "Player i+1". |
| ReducerProperties.StartMatchIdsDistinct | App.tsx:48-57 | Every player of a new match has their own id. |
| ReducerProperties.RosterNameDefault | App.tsx:51 | A given non-empty name is kept; otherwise the name is the positional label. |
| ReducerProperties.TossOpensFirstInnings | App.tsx:72-101 | The toss:<br>- without settings, nothing happens;<br>- otherwise team one bats iff (it won) equals (the winner chose to bat);<br>- the first two batsmen open and a fresh innings starts;<br>- the bowling side, the settings, the innings number, the target, the bowler, the free hit, the result and the last event are kept;<br>- with no sides or only one side it throws, and with two sides it throws iff the batting side has fewer than two players. |
| ReducerProperties.SecondInningsSwapsRoles | App.tsx:257-279 | The second innings swaps the sides and keeps the first innings. It starts a fresh second innings with the first two batsmen in, and clears the bowler and the free hit. The rosters change only in the openers' `isBatting`; the settings, the last event, the result and the toss fields are kept. |
| ReducerProperties.BreakThenChase | App.tsx:220-222 | After the break, the second innings chases first score + 1, with the sides swapped. |
| ReducerProperties.SingleFieldActions | App.tsx:104-110 | SET_BOWLER and CLEAR_LAST_EVENT change one field each; NEW_GAME resets; an unknown action changes nothing. |
| MatchInvariant.LegalBalls | App.tsx:139 | The legal balls of a timeline are no more than its balls. |
| MatchInvariant.InitialStateConsistent | App.tsx:24-42 | The initial state satisfies the bookkeeping invariant. |
| MatchInvariant.OverCountDiv | App.tsx:195-200 | Completed overs and balls of the over are 6·o+b divided by six, and its remainder. |
| MatchInvariant.AppendKeepsNumbering | App.tsx:187-188 | The appended ball is numbered by its position and tagged with the over it was bowled in. |
| MatchInvariant.AppendKeepsInnings | App.tsx:160-202 | Scoring and appending a ball keeps the innings consistent. |
| MatchInvariant.AppendedInningsConsistent | App.tsx:160-202 | An innings with one ball appended, and its score and over count advanced with it, stays consistent whatever its wicket count. |
| MatchInvariant.AppendedStateConsistent | App.tsx:242-254 | A state whose current innings took one appended ball and at most one wicket, with the rest of the invariant's inputs unchanged, stays consistent. |
| MatchInvariant.DeliveryKeepsConsistent | App.tsx:112-255 | A scoring delivery keeps the state invariant. |
| MatchInvariant.DeliveryCase | App.tsx:112-255 | Any delivery that does not throw keeps the state invariant. |
| MatchInvariant.ReducerKeepsConsistent | App.tsx:44-287 | Every reducer step that does not throw keeps the invariant. |
| MatchInvariant.RunKeepsConsistent | App.tsx:44-287 | Any sequence of actions keeps the invariant. |
| MatchInvariant.OversDisplayOfInnings | App.tsx:195-200 | A consistent innings' overs display "o.b" is the formatter applied to its legal balls, and reads back as them. |
| Sequences.Filter | components/PlayerStats.tsx:70 | `filter`: only kept elements of the input, and every kept element present. |
| Sequences.FilterKeepsOrder | components/PlayerStats.tsx:70 | A filter's result is a subsequence of its input. |
| Sequences.SubsequenceOfPrefix | components/PlayerStats.tsx:70 | Extending the sequence keeps a subsequence a subsequence. |
| Sequences.FilterConcat | components/WagonWheel.tsx:29-31 | Filtering a concatenation concatenates the filtered parts. |
| Sequences.FilterNone | components/WagonWheel.tsx:31-39 | A filter that keeps nothing gives the empty sequence. |
| Sequences.FilterAll | components/ScoringScreen.tsx:33-34 | A filter that keeps everything gives the input back. |
| Sequences.KeyBound | components/PlayerDetailView.tsx:31-33 | The bound exceeds every key. |
| Sequences.KeysFrom | components/PlayerDetailView.tsx:31-33 | The keys within a range, in ascending order, exactly those in the range. |
| Sequences.AscendingKeys | components/PlayerDetailView.tsx:33 | Sorting the keys gives them strictly ascending, with the same members. |
| Sequences.Reverse | components/ScoreHistory.tsx:33 | The reverse of a sequence, element by element. |
| PlayerDetail.RowOvers | components/PlayerDetailView.tsx:32 | Each row's over number, in row order. |
| PlayerDetail.TallyMeaning | components/PlayerDetailView.tsx:20-29 | The `Map` the forEach fills: keys are the overs with kept balls, and each entry is that over's sum and count. |
| PlayerDetail.Breakdown | components/PlayerDetailView.tsx:17-33 | The loop and sort give rows strictly ascending by over, one per over with kept balls, each with its sum and count. |
| PlayerDetail.BattingBreakdownByOver | components/PlayerDetailView.tsx:16-34 | Batting by over: the player's non-wide balls, with bat runs and balls faced other than no-balls. |
| PlayerDetail.BowlingBreakdownByOver | components/PlayerDetailView.tsx:36-54 | Bowling by over: the player's balls, with runs plus extras and wickets. |
| PlayerDetail.BreakdownMergesInnings | components/PlayerDetailView.tsx:18 | The breakdown over both innings adds up the breakdowns of each. |
| PlayerDetail.UntaggedTimelineHasNoRows | components/PlayerDetailView.tsx:21 | Balls without batsman or bowler ids give no rows. |
| PlayerDetail.ReducerStatesHaveNoBreakdown | App.tsx:187 | In every consistent state both breakdowns are empty, because the reducer records no ids. |
| ScoreHistory.SummaryOvers | components/ScoreHistory.tsx:30 | The over numbers of the summaries, in order. |
| ScoreHistory.OverBallsStep | components/ScoreHistory.tsx:21-27 | A new ball joins the balls and runs of its own over only. |
| ScoreHistory.OverMapKeys | components/ScoreHistory.tsx:22-24 | The over map has an entry for exactly the overs of the timeline. |
| ScoreHistory.AddBallEntry | components/ScoreHistory.tsx:22-26 | One forEach step keeps an over's entry equal to its balls so far and their worth, opening it only for the ball's own over. |
| ScoreHistory.OverMapMeaning | components/ScoreHistory.tsx:19-27 | Each entry holds that over's balls in timeline order and their runs plus extras. |
| ScoreHistory.CalculateOverSummaries | components/ScoreHistory.tsx:15-34 | The summaries: none for an empty timeline; otherwise one per over, in descending order, each with its balls and runs. |
| ScoreHistory.SummariesOfKeys | components/ScoreHistory.tsx:29-33 | Rows built from the ascending keys, once reversed, summarise the timeline. |
| ScoreHistory.ReversedRowsDescend | components/ScoreHistory.tsx:33 | Reversing rows with ascending overs gives descending overs. |
| ScoreHistory.ReversedRowsOvers | components/ScoreHistory.tsx:33 | Reversing keeps the set of overs. |
| ScoreHistory.EveryBallSummarised | components/ScoreHistory.tsx:21-27 | Every ball is shown under the summary of its own over. |
| ScoreHistory.OversSummarisedOnce | components/ScoreHistory.tsx:29-31 | No over has two summaries. |
| ScoreHistory.KeyTotalOfSummaries | components/ScoreHistory.tsx:25 | The summaries' runs are the per-over totals of their overs. |
| ScoreHistory.KeyTotalEmpty | components/ScoreHistory.tsx:17 | An empty timeline totals nothing in any over. |
| ScoreHistory.KeyTotalStep | components/ScoreHistory.tsx:25 | A new ball adds its worth to the total of its over when that over is listed. |
| ScoreHistory.KeyTotalCovers | components/ScoreHistory.tsx:21-27 | Totalling over all the overs of a timeline gives its whole worth. |
| ScoreHistory.SummaryRunsAddUp | components/ScoreHistory.tsx:15-34 | The overs' runs add up to the runs the timeline is worth, which equals the innings score in a consistent state. |
| BallLabels.ExtraText | components/ScoreHistory.tsx:48 | An extras chip is "Wd" or "Nb", longer only when extraRuns > 1. |
| BallLabels.BallLabel | components/ScoreHistory.tsx:36-55 | The chip's style by the first matching case (wicket, 4, 6, extra, dot, other) as iffs, and its text for each. |
| BallLabels.WicketTextIff | components/ScoringScreen.tsx:230 | On both screens the chip reads "W" iff the ball was a wicket. |
| BallLabels.ScreensAgreeButForDot | components/ScoringScreen.tsx:228-235 | The strip and the history label every ball alike except for the dot glyph. |
| BallLabels.BoundaryHidesExtra | components/ScoringScreen.tsx:231-233 | A four or six off a wide or no-ball shows the runs, not the extra. |
| BallLabels.ExtraTextRoundTrip | components/ScoringScreen.tsx:233 | An extras chip gives back wide-or-no-ball and the extra run count. |
| Shots.PlayerShots | components/WagonWheel.tsx:29-39 | Every shot drawn scored, has one of the chart's directions, and was faced by the player. |
| Shots.PlayerShotsMembers | components/WagonWheel.tsx:31-39 | The shots are exactly the balls of either innings that pass the filter. |
| Shots.PlayerShotsInOrder | components/ShotMap.tsx:29-30 | The shots keep timeline order, first innings first. |
| Shots.ReducerStatesHaveNoShots | App.tsx:187 | In every consistent state no shot is drawn, because the reducer records no batsman or direction. |
| Shots.RunColorDefault | components/WagonWheel.tsx:20-26 | The default colour is used iff the runs are not 1, 2, 3, 4 or 6, and the five colours differ. |
| WagonWheel.Lines | components/WagonWheel.tsx:54-56 | One line per shot, ending at its direction's point, in its run colour. |
| WagonWheel.CoordinatesCoverDirections | components/WagonWheel.tsx:9-18 | The table covers exactly the eight directions, at distinct points. |
| ShotMap.Dots | components/ShotMap.tsx:54-56 | One dot per shot at its direction's point, in its run colour. |
| ShotMap.CoordinatesCoverDirections | components/ShotMap.tsx:9-18 | The table covers exactly the eight directions, at distinct points. |
| ShotMap.ChartsDrawTheSameShots | components/ShotMap.tsx:38 | Both charts filter against the same keys, so they draw the same shots. |
| Commentary.GenerateCommentary | utils/commentary.ts:3-18 | Four and six give their sentences; there is a sentence iff the event is a four or six, or the ball is 1-3 clean runs; `Commentary.RunSentence` fixes that sentence's text. |
| Commentary.RunSentence | utils/commentary.ts:12-14 | The run sentence is exactly "1 run.", "2 runs." or "3 runs.": it starts with the run digit and says "run" only for one. |
| Commentary.CommentaryOfDelivery | utils/commentary.ts:3-18 | For a reducer-made ball and its event, there is commentary iff it is not a wicket and is a four, a six, or 1-3 runs off a legal ball. |
| MatchSummary.TiedMatchHeadline | components/MatchSummary.tsx:20-22 | A tie shows the summary, with the headline "Match Tied won!" and an empty margin. |
| MatchSummary.MarginTail | App.tsx:228-236 | The margin text is empty iff the match is tied, and its fifth-last character tells wickets from runs; the step towards `MatchSummary.MarginTextInjective`. |
| Text.IntToStringInjective | App.tsx:228 | Different integers print differently. |
| MatchSummary.MarginTextInjective | App.tsx:228-236 | Different margins print differently. |
| MatchSummary.InningsCards | components/MatchSummary.tsx:54 | One card for the first innings, and a second once that innings exists. |
| MatchSummary.TopFoldFacts | components/MatchSummary.tsx:29-35 | The reduce's result beats every positive metric, and is either the last player to take over or the initial player when none could. |
| MatchSummary.FindTopPerformer | components/MatchSummary.tsx:26-39 | No one iff no metric is positive; otherwise a player with a positive, maximal metric, who is the last such player in roster order. |
| MatchSummary.TopPerformerFacts | components/MatchSummary.tsx:29-38 | Folding from the first player gives a non-positive result iff every metric is non-positive; otherwise the result is maximal and the last to take over. |
| PlayerStats.StrikeRate | components/PlayerStats.tsx:22 | NoBalls (shown as "0.00") iff no balls; otherwise the rate times the balls is 100 times the runs. |
| PlayerStats.Economy | components/PlayerStats.tsx:23 | NoBalls (shown as "0.00") iff no balls; otherwise the rate times the balls is 6 times the runs. |
| PlayerStats.EconomyIsScaledStrikeRate | components/PlayerStats.tsx:22-23 | Economy is the strike rate scaled by 6/100, and both are positive iff the runs are. |
| PlayerStats.NameCell | components/PlayerStats.tsx:44 | The name cell is the name and a space, ending in '*' iff the player is not out and batting. |
| PlayerStats.BattingRows | components/PlayerStats.tsx:42-50 | One batting row per player, in roster order, with the player's figures and strike rate. |
| PlayerStats.Bowlers | components/PlayerStats.tsx:70 | The bowling table lists exactly the players with ballsBowled > 0. |
| PlayerStats.BowlingRows | components/PlayerStats.tsx:70-77 | One bowling row per such player, with overs text, runs, wickets and economy. |
| PlayerStats.BowlingRowsAreExact | components/PlayerStats.tsx:73-76 | A bowling row's economy is never NoBalls but a computed rate (which may still print "0.00" when no runs were conceded), and its overs text reads back as the balls bowled. |
| PlayerStats.BowlersInRosterOrder | components/PlayerStats.tsx:70 | The bowling table keeps roster order. |
| PlayerStats.LegalBallListsBowler | components/PlayerStats.tsx:70 | After a legal scored ball its bowler is listed, with one more ball bowled. |
| ScoringScreen.BowlerChoices | components/ScoringScreen.tsx:33-34 | The chooser offers exactly the side's players whose id is not the last bowler's. |
| ScoringScreen.LastBowlerNotice | components/ScoringScreen.tsx:26 | The greyed-out entry is a player with the last bowler's id, and exists iff such a player exists. |
| ScoringScreen.ChooserPartitionsTheSide | components/ScoringScreen.tsx:26-57 | The chooser keeps roster order and offers the whole side when there was no last bowler. Every player is offered or is the greyed-out last bowler, never both. |
| ScoringScreen.ChosenBowlerIsNew | components/ScoringScreen.tsx:136-138 | Choosing from the chooser sets a bowler different from the last. |
| ScoringScreen.PromptAtOverStart | components/ScoringScreen.tsx:108-124 | In a consistent state the two effects ask for a bowler iff the game is in progress with no legal ball of the over bowled. |
| ScoringScreen.OverEndPrompts | components/ScoringScreen.tsx:111 | An over-ending legal ball, with play still going, raises the chooser; a mid-over legal ball does not. |
| ScoringScreen.ExtraAtOverStartPromptsAgain | components/ScoringScreen.tsx:111 | A wide or no-ball at the start of an over raises the chooser again. |
| ScoringScreen.HandleScore | components/ScoringScreen.tsx:141-148 | A pending extra turns the runs into that extra: wide iff Wd, no-ball iff Nb, legal iff none. The pending extra is then cleared. |
| ScoringScreen.HandleScoreValue | components/ScoringScreen.tsx:141-148 | The dispatched delivery is worth 2r+1 with an extra pending, r otherwise. |
| ScoringScreen.SliceFromEnd | components/ScoringScreen.tsx:221 | `slice(-n)` gives a suffix: n elements when 0 < n ≤ length, and the whole sequence for n = 0 or n beyond the length. |
| ScoringScreen.OverStrip | components/ScoringScreen.tsx:220-221 | The strip is a suffix of the timeline. |
| ScoringScreen.StripLabels | components/ScoringScreen.tsx:227-236 | One chip per strip ball, labelled by the shared rules. |
| ScoringScreen.StripLength | components/ScoringScreen.tsx:220-221 | The strip shows the whole timeline at an over boundary, and otherwise exactly `ballsInOver` balls. |
| ScoringScreen.ExtraLowersLegalCount | components/ScoringScreen.tsx:221 | A timeline with an extra has fewer legal balls than balls. |
| ScoringScreen.StripDropsBallsAfterExtra | components/ScoringScreen.tsx:221 | With an extra in the strip, it shows fewer legal balls than the over holds. |
| ScoringScreen.WideHidesDotBall | components/ScoringScreen.tsx:221 | A dot ball then a wide: the strip shows the wide alone. |
| SetupScreen.ClampPlayers | components/SetupScreen.tsx:27 | The side size is in 2..11, unchanged when already in range, and the nearest such value otherwise. |
| SetupScreen.Blank | components/SetupScreen.tsx:31-32 | `Array(n).fill('')`: n empty names. |
| SetupScreen.NextSettings | components/SetupScreen.tsx:27-33 | Moving on clamps the side size and gives both sides exactly that many blank names, changing nothing else. |
| SetupScreen.DefaultNames | components/SetupScreen.tsx:50-51 | Names keep their count; non-empty ones are kept, and every entry is non-empty and agrees with the reducer's roster naming. |
| SetupScreen.FinalSettings | components/SetupScreen.tsx:48-52 | Submitting changes only the two name lists, each defaulted. |
| SetupScreen.DefaultNamesIdempotent | components/SetupScreen.tsx:50-51 | Defaulting twice is defaulting once, and the reducer names players as the form did. |
| SetupScreen.UntouchedFormNamesPlayersByPosition | components/SetupScreen.tsx:24-54 | With no names typed, every player is called "Player i+1", with as many players as the clamped size. |
| SetupScreen.SetupForm.constructor | components/SetupScreen.tsx:9-17 | The form starts on step one with five overs, two players, "Team A", "Team B" and no names. |
| SetupScreen.SetupForm.ChangeOvers | components/SetupScreen.tsx:19-22 | The input handler stores the overs and nothing else. |
| SetupScreen.SetupForm.ChangePlayersPerTeam | components/SetupScreen.tsx:19-22 | The input handler stores the side size unclamped. |
| SetupScreen.SetupForm.ChangeTeamName | components/SetupScreen.tsx:19-22 | The input handler stores one team name. |
| SetupScreen.SetupForm.HandleNext | components/SetupScreen.tsx:24-36 | On step one the settings are normalised; the step always advances by one. |
| SetupScreen.SetupForm.Back | components/SetupScreen.tsx:123 | Back returns to step one with the settings kept. |
| SetupScreen.SetupForm.ChangePlayerName | components/SetupScreen.tsx:38-44 | Only entry `index` of the chosen side's names changes; the other side and the step stay. |
| SetupScreen.SetupForm.HandleSubmit | components/SetupScreen.tsx:46-54 | Submit hands over the final settings without changing the form. |

## Left out

- Undo and redo: the reducer has no such cases, so there is nothing to model.
- Floating-point values. The model leaves out:
  - the run rate;
  - the `toFixed` rounding of the strike rate and economy (the exact quotient is modelled instead);
  - the printed text of a rate: the no-balls placeholder, a zero rate and a rate that rounds down print the same "0.00", which the model keeps apart as `NoBalls` and `Value(...)`;
  - the float `overs + balls / 10` encoding, which is modelled as a pair of naturals.
- Randomness: the toss (TossScreen.tsx is not part of this model) and the shot map's random offset.
- Timers and effects. The model leaves out:
  - the FOUR!/SIX!/WICKET! burst and its 1.5-second timer;
  - the glow classes;
  - React's scheduling of effects. The bowler prompt is modelled as the condition each effect tests.
- Presentation: JSX and SVG markup, icons, tabs, the loading screen, the umpire signal and the shot placement modal.
- JSON deep copies: these are value semantics in the model.
- `GameState.commentary`, which the reducer never sets.
- The constants module, which is not shown. `BALLS_PER_OVER` is 6.
- The x and y coordinates in `SHOT_COORDINATES`: their typed `Record` of `{x, y}` objects is modelled as a map to pairs.
- Commentary.GenerateCommentary: it does not take the state or the score before the ball, because the source ignores both.
- SetupScreen.SetupForm.ChangeOvers: form inputs store strings, and the select's overs value stays a string in the settings; the model stores natural numbers.
- SetupScreen.SetupForm.ChangePlayersPerTeam: the side size is a natural number, so a negative, fractional or non-numeric entry (`Number` giving NaN, or `Array` throwing on a fraction) is not modelled.
- SetupScreen.SetupForm.ChangePlayerName: it requires an index within the list, because the form only renders inputs for existing entries; writing past the end, which would leave holes in the JavaScript array, is not modelled.
- MatchSummary.FindTopPerformer: it takes an existing team. A missing `teams[0]` or `teams[1]`, which the source answers with null through optional chaining, is not modelled.
- The statistics panel's tabs (`activeTab`, `activeInnings`) are presentation state and are not modelled.
