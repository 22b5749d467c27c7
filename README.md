# Ten-pin bowling scorer, modelled in Dafny

This project models the scoring engine of a console ten-pin bowling game. The
original is `Bowling.java`. The model covers three parts:

- **Frame** (`frames.dfy`). A frame is a value: its position, how many rolls
  it holds and three roll slots. The model defines which rolls the frame may
  still take, how a roll is recorded or refused, and the frame total. A strike
  or spare total looks ahead into the next two frames.
- **Game** (`games.dfy`). The `Game` class owns an `array<Frame>` of ten frames
  and a cursor that starts at -1 and only moves forward. It has the game-over
  test and the running game total. Each method that changes the game updates
  the array or cursor in place and is specified by a function on the value
  `GameState`; `GameTotal` is specified by `GameScore` of the frames.
- **Scoreboard** (`scoreboard.dfy`). A `TextBuilder` class stands in for the
  `StringBuilder`. The methods append and pad cells in loops, exactly as the
  Java formatters do. Each method is proved against a function that states
  the text it produces.

Three further files support the model:

- `results.dfy` holds the `Option`, `Result` and `Outcome` wrappers. A thrown
  exception becomes a `Failure`/`Fail` value that carries a `Thrown` (its kind
  and message).
- `standard.dfy` is an independent reference. It scores a frame from the flat
  sequence of rolls, in the usual bowling way. It is proved to agree with the
  frame-by-frame look-ahead on every game played in turn order.
- `scenarios.dfy` restates the games of `BowlingTest.java` and proves the
  frame totals, game totals and game-over states those tests expect. Only
  testSpare is also played through the `Game` object, in two halves:
  `PlaySpare` and `PlaySpareThenSix`. testStrike and the three full games are
  stated as predicates on the frames' recorded rolls.

Design choices:

- **Neighbour frames.** In Java, each frame reaches its neighbours through a
  back-pointer to its game. In the model, frames are values in the game's
  array (or a `seq<Frame>`), and a frame is addressed by its index.
- **The -1 sentinel.** Java's `total()` returns -1 for "not yet
  determinable". Here `Total` returns `Option<int>`. `SentinelTotal` is the
  Java form, and `SentinelMeansUndetermined` relates the two.
- **Turn order.** The turn loop rolls only on the open frame, and advances
  only once that frame is closed. The model records this as the predicate
  `Sequenced` on `Game.Roll`. The loop itself is terminal I/O and is not
  modelled.

In `score`, `switch (rolls++)` (Bowling.java:92) counts the roll before the
over-full refusal at line 99. So that refusal still leaves the frame with two
rolls. `Frames.ScoreAsWritten` models this order, and Findings records it. The
game methods use the corrected roll `Frames.Score`, where a refused roll leaves
the frame unchanged.

## Model

| member | source | states |
|---|---|---|
| Frames.EmptyFrame | src/main/java/org/jlee/bowling/Bowling.java:13-21 | A new frame at position i keeps that position, holds no rolls and its three slots are 0; at positions 0..9 it is a valid, open frame. |
| Frames.IsStrike | src/main/java/org/jlee/bowling/Bowling.java:23-25 | A strike is a frame whose first roll is 10. |
| Frames.IsSpare | src/main/java/org/jlee/bowling/Bowling.java:27-29 | A spare is not a strike, and its first two rolls sum to 10. |
| Frames.CanRoll | src/main/java/org/jlee/bowling/Bowling.java:31-39 | An empty frame can roll. After one roll, it can roll unless it is a strike in frames 0-8. After two rolls, only frame 9 with a strike or spare can roll. After three rolls, no frame can roll. |
| Frames.CanTotal | src/main/java/org/jlee/bowling/Bowling.java:41-43 | A frame can be totalled exactly when its total is determined. `SentinelMeansUndetermined` shows this is the same as Java's `total() != -1`. |
| Frames.ScoreAsWritten | src/main/java/org/jlee/bowling/Bowling.java:85-108 | The roll in Bowling.java's own order. It makes the same three refusals, but the roll count is incremented before the over-full second roll is refused. |
| Frames.SentinelTotal | src/main/java/org/jlee/bowling/Bowling.java:45-79 | The total as Java returns it: -1 when it is not determined, otherwise the total. |
| Frames.SumTotals | src/main/java/org/jlee/bowling/Bowling.java:144-152 | The sum of the determined totals of frames 0..n-1; undetermined frames add nothing. |
| Frames.GameScore | src/main/java/org/jlee/bowling/Bowling.java:144-152 | The running game score: `SumTotals` over all ten frames. |
| Frames.CanRollTable | src/main/java/org/jlee/bowling/Bowling.java:31-39 | A valid frame can take another roll exactly while it holds fewer rolls than it needs: 1 for a strike in frames 0-8, 3 for a strike or spare in frame 9, 2 otherwise. So no frame ever holds more than 2 rolls (3 in frame 9). |
| Frames.Score | src/main/java/org/jlee/bowling/Bowling.java:85-108 | The roll is refused in three ways. A closed frame gives IllegalState "No more rolls allowed in this frame". Pins outside 0..10 give IllegalArgument "Invalid score". A second roll that overfills the rack gives IllegalState "Invalid score", except after a strike in frame 9. In every other case the roll succeeds: it keeps the frame index, increments the roll count, writes the slot picked by the previous roll count, and the recorded rolls gain `pins` at the end. |
| Frames.ScoreKeepsValid | src/main/java/org/jlee/bowling/Bowling.java:85-108 | An accepted roll keeps a reachable frame reachable and the roll count within its maximum. Only frame 9 ever gets an extra roll. |
| Frames.RolledIsValid | src/main/java/org/jlee/bowling/Bowling.java:85-108 | Any sequence of accepted rolls from a valid frame ends in a valid frame. |
| Frames.RolledRecords | src/main/java/org/jlee/bowling/Bowling.java:92-107 | Accepted rolls are recorded in the order they were bowled. |
| Frames.ValidIsReachable | src/main/java/org/jlee/bowling/Bowling.java:85-108 | Every valid frame is the result of replaying its own recorded rolls on the empty frame, so the valid frames are exactly the reachable ones. |
| Frames.ScoreAsWrittenAgrees | src/main/java/org/jlee/bowling/Bowling.java:92-101 | The roll as the Java orders its effects agrees with `Score` on every input but one. On a refused over-full second roll, the Java still leaves the frame with 2 rolls. |
| Frames.RefusedSecondRollClosesFrame | src/main/java/org/jlee/bowling/Bowling.java:92-101 | Frame 0 holds a 5 and the player rolls 6. The roll is refused, yet the frame as written is left closed, showing the rolls 5 and 0. |
| Frames.TenthFrameThreeStrikes | src/main/java/org/jlee/bowling/Bowling.java:97-101 | Frame 9 accepts 10, 10, 10. Frame 8 refuses a second roll after a strike. Frame 9 refuses 5 followed by 6. |
| Frames.Reset | src/main/java/org/jlee/bowling/Bowling.java:110-115 | The frame keeps its index, holds no rolls, its slots are zero, and it is open again. |
| Frames.NextFrame | src/main/java/org/jlee/bowling/Bowling.java:81-83 | The frame after frame i has index i+1. It exists only for i < 9, so the look-ahead never leaves the array. |
| Frames.Total | src/main/java/org/jlee/bowling/Bowling.java:45-48 | A frame that can still roll has no total (-1 in Java). |
| Frames.TotalBounds | src/main/java/org/jlee/bowling/Bowling.java:45-79 | A determined frame total lies in 0..30. |
| Frames.SentinelMeansUndetermined | src/main/java/org/jlee/bowling/Bowling.java:41-48 | canTotal holds exactly when total() != -1. An open frame's total is -1. |
| StandardScoring.TotalMatchesStandard | src/main/java/org/jlee/bowling/Bowling.java:45-79 | In a game played in turn order, every frame's look-ahead total equals the standard score read off the flat roll sequence. |
| StandardScoring.GameScoreMatchesStandard | src/main/java/org/jlee/bowling/Bowling.java:144-152 | In a game played in turn order, the game total equals the sum of the standard frame scores. |
| Frames.GameScoreBounds | src/main/java/org/jlee/bowling/Bowling.java:144-152 | A game total lies in 0..300. |
| Games.NewGame | src/main/java/org/jlee/bowling/Bowling.java:119-127 | A new game has ten empty, open frames and the cursor before the first frame, and it is in turn order. |
| Games.Game.constructor | src/main/java/org/jlee/bowling/Bowling.java:123-127 | The constructor fills a fresh array with the empty frames 0..9. Its state is `NewGame()`. |
| Games.Game.CurrentFrame | src/main/java/org/jlee/bowling/Bowling.java:129-131 | Returns the frame under the cursor. That frame carries the cursor's index and is valid. |
| Games.Advance | src/main/java/org/jlee/bowling/Bowling.java:133-138 | Fails with IllegalState "Game is over" exactly when the game is over. Otherwise the cursor advances by one and the frames are unchanged. |
| Games.Game.NextFrame | src/main/java/org/jlee/bowling/Bowling.java:133-138 | The same as `Advance`, done in place. It returns the new cursor, or the failure with the state unchanged. |
| Games.IsOver | src/main/java/org/jlee/bowling/Bowling.java:140-142 | The game is over when the cursor is on frame 9 and that frame can take no more rolls. |
| Games.Game.IsGameOver | src/main/java/org/jlee/bowling/Bowling.java:140-142 | The game-over test on the object: `IsOver` of its state. |
| Games.Sequenced | src/main/java/org/jlee/bowling/Bowling.java:205-214 | The turn order the turn loop keeps: every frame before the cursor is closed, and every frame after it is empty. |
| Games.AdvanceKeepsSequenced | src/main/java/org/jlee/bowling/Bowling.java:133-138 | Advancing past a closed frame keeps the turn order and opens an empty frame. |
| Games.OverMeansAllClosed | src/main/java/org/jlee/bowling/Bowling.java:140-142 | In turn order, the game is over exactly when every frame is closed. |
| Games.OverMeansAllTotalled | src/main/java/org/jlee/bowling/Bowling.java:140-152 | When the game is over, every frame total is determined. |
| Games.ScoreAt | src/main/java/org/jlee/bowling/Bowling.java:85-108 | A roll on frame i succeeds or fails exactly as `Score` on that frame. Only frame i can change. |
| Games.Game.ScoreFrame | src/main/java/org/jlee/bowling/Bowling.java:85-108 | `ScoreAt` done in place on the frame array. A refused roll changes nothing. |
| Games.RollKeepsSequenced | src/main/java/org/jlee/bowling/Bowling.java:205-214 | A roll on the open frame keeps the turn order. |
| Games.Game.Roll | src/main/java/org/jlee/bowling/Bowling.java:205-214 | The roll the turn loop makes: `ScoreAt` on the cursor's frame, keeping the turn order. |
| Games.Game.GameTotal | src/main/java/org/jlee/bowling/Bowling.java:144-152 | The loop sums the determined frame totals and skips the rest. The result is `GameScore` of the frames, in 0..300. |
| Scoreboard.TextBuilder.constructor | src/main/java/org/jlee/bowling/Bowling.java:243 | The text builder that stands for the `StringBuilder` starts empty. |
| Scoreboard.TextBuilder.Append | src/main/java/org/jlee/bowling/Bowling.java:243 | Appending adds the given text at the end and changes nothing else. |
| Scoreboard.TotalCell | src/main/java/org/jlee/bowling/Bowling.java:293-299 | A total cell is the decimal form of the total, padded by its digit count: len-3 spaces from 100, len-2 from 10, and len-1 otherwise. |
| Scoreboard.RollCell | src/main/java/org/jlee/bowling/Bowling.java:301-310 | A roll cell shows X for 10 and the decimal pin count otherwise, followed by len-1 spaces. |
| Scoreboard.FrameCell | src/main/java/org/jlee/bowling/Bowling.java:312-339 | A frame's cell depends on its roll count. With 0 rolls it is blank. With 1 roll it is the roll cell. With 2 rolls it is the first two rolls in two-character columns, the second shown as / for a spare, then blanks. With 3 rolls it is all three rolls in two-character columns. |
| Scoreboard.Board | src/main/java/org/jlee/bowling/Bowling.java:242-284 | The whole table: the header and divider once, then each player's rolls row, totals row and divider. |
| Scoreboard.Cell | src/main/java/org/jlee/bowling/Bowling.java:286-291 | A cell has exactly `len` characters: the first characters of s, then spaces. |
| Scoreboard.AppendCell | src/main/java/org/jlee/bowling/Bowling.java:286-291 | Appends `Cell(s, len)`, padding in a loop. |
| Scoreboard.DigitsRoundTrip | src/main/java/org/jlee/bowling/Bowling.java:294 | Reading the decimal digits back gives the number. |
| Scoreboard.DigitsWidth | src/main/java/org/jlee/bowling/Bowling.java:295 | A number below 1000 has 3, 2 or 1 digits, as the padding rule assumes. |
| Scoreboard.TotalCellWidth | src/main/java/org/jlee/bowling/Bowling.java:293-299 | A total in 0..999 fills its column exactly. The column starts with the total's decimal form, which parses back to the total. |
| Scoreboard.AppendTotal | src/main/java/org/jlee/bowling/Bowling.java:293-299 | Appends `TotalCell(t, len)`: the number, then the padding by digit count. |
| Scoreboard.RollCellShape | src/main/java/org/jlee/bowling/Bowling.java:301-310 | A roll fills its column exactly. It shows X exactly when the roll is 10, and the digit otherwise. |
| Scoreboard.AppendRoll | src/main/java/org/jlee/bowling/Bowling.java:301-310 | Appends `RollCell(r, len)`. |
| Scoreboard.FrameCellWidth | src/main/java/org/jlee/bowling/Bowling.java:312-339 | The rolls cell of every reachable frame is exactly 6 characters wide, whatever its roll count. |
| Scoreboard.FrameCellMarks | src/main/java/org/jlee/bowling/Bowling.java:312-339 | The cell shows X first exactly for a strike. With two or more rolls, it shows / in column 2 exactly for a spare. |
| Scoreboard.AppendFrame | src/main/java/org/jlee/bowling/Bowling.java:312-339 | Appends `FrameCell(f, width)`, case by case on the roll count. |
| Scoreboard.RowsWidth | src/main/java/org/jlee/bowling/Bowling.java:246-281 | Each of a player's two rows adds one 90-character line that ends in a newline. The header and the divider are 90 characters each. |
| Scoreboard.BoardWidth | src/main/java/org/jlee/bowling/Bowling.java:242-284 | The table has 180 characters plus 270 per player. |
| Scoreboard.AppendRollsRow | src/main/java/org/jlee/bowling/Bowling.java:248-261 | Appends the rolls row: name, ten frame cells, blank total column. |
| Scoreboard.AppendTotalColumn | src/main/java/org/jlee/bowling/Bowling.java:267-275 | Appends a frame's total when it is determined, and a blank cell otherwise. |
| Scoreboard.AppendTotalsRow | src/main/java/org/jlee/bowling/Bowling.java:263-280 | Appends the totals row: blank name, ten total cells, game total. |
| Scoreboard.AppendPlayer | src/main/java/org/jlee/bowling/Bowling.java:247-281 | Appends one player's two rows and the divider, for the player's game as it stands. |
| Scoreboard.AppendPlayers | src/main/java/org/jlee/bowling/Bowling.java:246-282 | Appends every player's rows, in order. |
| Scoreboard.PrintScore | src/main/java/org/jlee/bowling/Bowling.java:242-284 | The output is the header, the divider, then each player's block. That is `Board` of the players' current games, with 180 + 270 characters per player. |
| Scoreboard.Player.constructor | src/main/java/org/jlee/bowling/Bowling.java:156-164 | A player holds the given name and a fresh new game. |
| Scenarios.PerfectGameScores | src/test/java/org/jlee/bowling/BowlingTest.java:93-95 | Twelve strikes: every frame totals 30, the game totals 300, and the game is over. |
| Scenarios.SpareFinishTotals | src/test/java/org/jlee/bowling/BowlingTest.java:98-99 | The frames 5,4 / 9,1 / 5,5 / 6,3 / 0,1 / 0,0 / 10 / 10 / 10 / 5,5,7 total 9, 15, 16, 9, 1, 0, 30, 25, 20 and 17. |
| Scenarios.SpareFinishGameScores | src/test/java/org/jlee/bowling/BowlingTest.java:98-100 | That game totals 142 and is over. |
| Scenarios.OpenFinishTotals | src/test/java/org/jlee/bowling/BowlingTest.java:103-104 | The frames 5,4 / 9,1 / 5,5 / 6,3 / 0,1 / 0,0 / 10 / 10 / 7,2 / 5,4 total 9, 15, 16, 9, 1, 0, 27, 19, 9 and 9. |
| Scenarios.OpenFinishGameScores | src/test/java/org/jlee/bowling/BowlingTest.java:103-105 | That game totals 114 and is over. |
| Scenarios.CommonStartScores | src/test/java/org/jlee/bowling/BowlingTest.java:98-104 | The shared first six frames total 9, 15, 16, 9, 1 and 0 (50 together). |
| Scenarios.ThreeStrikesScores | src/test/java/org/jlee/bowling/BowlingTest.java:14-27 | After three strikes, frame 0 totals 30, frames 1 and 2 are not yet determined, and the game total is 30. |
| Scenarios.StrikesThenSpareScores | src/test/java/org/jlee/bowling/BowlingTest.java:29-40 | After three strikes and 5,5: the strikes total 30, 25 and 20, the spare is undetermined, and the game total is 75. |
| Scenarios.SpareThenSixScores | src/test/java/org/jlee/bowling/BowlingTest.java:44-60 | 3,7 is a closed spare and not a strike. It has no total until the next roll and totals 16 after the 6. Frame 1 is undetermined, and the game total is 16. |
| Scenarios.PlaySpare | src/test/java/org/jlee/bowling/BowlingTest.java:44-52 | Played on a `Game`: after 3 and 7, the current frame is a closed spare, not a strike, with no total. |
| Scenarios.PlaySpareThenSix | src/test/java/org/jlee/bowling/BowlingTest.java:44-60 | Played on the same game, the next frame's 6 gives a game total of 16. |

## Left out

- `main`, `getPins`, `newPlayer`, `playerTakeTurn` and `singlePlayerGame` (Bowling.java:166-236) are left out. They are console input and output: prompts, line reading, number parsing, the retry loop and process exit. What the turn loop guarantees is kept as `Sequenced` and the preconditions of `Game.Roll`.
- The test-file helpers `frames` and `totals` parse strings and are left out. Their games appear in `scenarios.dfy` as predicates on the frames' recorded rolls.
- The `Appendable` stream `printScore` writes to is not modelled. `PrintScore` returns the text it would write.
- Frame identity is not modelled. A Java frame is an object that points back to its game; here a frame is a value at an index in the game's array. Frames therefore cannot be aliased across games.
- Games.Game.CurrentFrame requires the cursor to be on a frame. Java would throw ArrayIndexOutOfBoundsException before the first `nextFrame()`, and that exception is not modelled.
- Games.Game.NextFrame and Games.Advance require that the cursor is not on an open last frame. There, Java would move the cursor to 10 and throw ArrayIndexOutOfBoundsException; the turn loop never does this.
- Scoreboard.Cell and Scoreboard.AppendCell require `len >= 0`. With a negative length, `StringBuilder.append(CharSequence, int, int)` at Bowling.java:287 throws IndexOutOfBoundsException, because the end comes before the start 0. That exception is not modelled. Every call in the table passes a width of 2, 6 or 10.
- Scoreboard.FrameCell and Scoreboard.AppendFrame require a width that keeps that padding non-negative: 0 or more for an empty frame and 4 or more for a two-roll frame. The table only uses width 6.
- Scoreboard.Cell counts characters as Unicode scalar values. Java's `String.length()` at Bowling.java:287-288 counts UTF-16 code units. So a player name with a character outside the Basic Multilingual Plane is cut and padded differently here.
- Games.Game.ScoreFrame and Games.Game.Roll use the corrected roll `Frames.Score`, which refuses an over-full second roll without touching the frame. The Java behaviour is modelled separately as `Frames.ScoreAsWritten` (see Findings).
- Integers are unbounded. Java's 32-bit `int` never overflows here: pins are 0..10, totals at most 30 and game totals at most 300.
- `Integer` to text conversion (`StringBuilder.append(int)`) is modelled as `Decimal`, the usual decimal form with a leading '-' for negatives. Scoreboard.TotalCellWidth states the column width only for totals in 0..999, which covers every total a game can reach (0..300).

## Findings

| source | as written | input that shows it | evidently intended | confidence | as-written member | corrected member |
|---|---|---|---|---|---|---|
| src/main/java/org/jlee/bowling/Bowling.java:92-101 | `switch (rolls++)` increments the roll count before the over-full second roll is refused at line 99, so the refused roll still counts. | Frame 0 holds a 5 and `score(6)` is called. It throws "Invalid score", yet the frame is left with 2 rolls: closed, showing 5 then 0, total 5. | A refused roll leaves the frame unchanged, as for the other two refusals and as the roll-validation message implies. | medium, not executed | Frames.RefusedSecondRollClosesFrame | Games.Game.ScoreFrame |
