# Birthday app mini-game rules, in Dafny

This project models the game logic of a birthday-greeting web app. The app
is a five-step stepper: welcome, surprise reveal, a small balloon game,
memory lane, and the final celebration. At the surprise reveal the visitor
picks a path. The crown path plays Snake & Ladders, Memory Match, the
Friendship Quiz and Bonus Balloons. The love path plays the Love Maze,
its own memory-match game, the Romance Quiz and its own balloon game. Each mini-game opens on
a 10-second rules screen and a 3-second countdown, then plays against a
clock. It ends on a success screen, which hands control back to the path,
or on a retry screen, which starts a new attempt.

Every game component is a `class` whose fields are the component's state
variables. Every event handler is a `method` with a `modifies` frame. One
second of the component's timer effects is a `Tick` method. Dice rolls,
shuffles, question draws and the computer's coin flips come from
`Math.random` in the app; here they are parameters (a roll, a flag, or a
`seq<nat>` of draws). Delays that postpone a screen or a callback
(`setTimeout` of 0.5 to 5 seconds) happen at once in the model, except
the Love Maze's 3 seconds of confetti before its success screen, which
`LoveMaze.Game.ConfettiStep` counts down second by second. The one
delay during which other timers change the outcome is listed under
"## Left out" (`Quiz.Game.Submit`).
`completed` / `finished` fields record that the component's `onComplete`
callback has been called; the quiz counts its scheduled calls in
`completions`, because it can make two.

Modules, one per source file or shared concept:

- `Lifecycle` is the opening all games share: rules, countdown, play.
- `SnakeLadder` models `src/components/SnakeLadderGame.tsx`.
- `MemoryMatch` models `src/components/MemoryMatchGame.tsx`, including
  the in-place shuffle on an `array`.
- `Quiz` holds the quiz engine that `RomanceQuizGame.tsx` and
  `FriendshipGame.tsx` share line for line.
- `RomanceQuiz` and `FriendshipQuiz` hold the two answer-key pools.
- `LoveMaze` models `src/components/LoveMazeGame.tsx`.
- `BalloonPop` models `src/components/BonusBalloonGame.tsx`.
- `PathSequencer` models `CrownPath.tsx` and `LovePath.tsx`, which
  share their navigation and differ in the game of every slot.
- `BirthdayApp` models the stepper, the path choice and the twelve-balloon
  game of `src/App.tsx`.
- `Optional` is an `Option` datatype.

Some behaviour of the code is easy to misread, and the model follows the
code:

- No retry shows the rules or the countdown again. Every retry calls
  `initializeGame` directly, so play restarts at once
  (`BalloonPop.Game.RetryStep` ends on the play screen).
- Memory Match never raises its attempt number. Its retry screen calls
  `initializeGame`, not `resetGame`, so the attempt number stays 1 and
  the shuffle never adds extra rounds. The retry timer is also never
  wound back (`MemoryMatch.SecondFailureRedealsAtOnce`).
  `MemoryMatch.Game.ResetGame` models the uncalled `resetGame` all the
  same.
- Snake & Ladders calls `onComplete` after a win, but also after a tie,
  after a loss on time and when the computer reaches tile 100
  (`SnakeLadder.Game.TimeUp`, `SnakeLadder.ComputerWinStillCompletes`).
- The maze ends when the player reaches the finish; the gates play no
  part. The gate questions can never come up: a move into a shut gate is
  refused, and the question needs the player standing on one
  (`LoveMaze.WalkAvoidsWallsAndClosedGates`).
- A wrong fifth quiz answer does not end the round. The wrong-answer
  branch reads the answer count from before the answer, so the round ends
  only when the question clock runs out
  (`Quiz.WrongFifthAnswerWaitsForClock`).
- A quiz question that times out after the round has been passed times
  out a second time (see "## Findings"). `Quiz.Game.Tick` models the
  code as written; `Quiz.Game.ClockStepGuarded` is the corrected clock.

## Model

| member | source | states |
|---|---|---|
| Lifecycle.IntroTick | src/components/SnakeLadderGame.tsx:60-84 | one second of the opening: once play has started it stays started; before that, each second brings play one second nearer; the rules lead only to the 3-second countdown, and the countdown only to play |
| Lifecycle.IntroAfterStarts | src/components/SnakeLadderGame.tsx:60-84 | play has started after n seconds if and only if n is at least the seconds still needed |
| Lifecycle.OpeningLasts13Seconds | src/components/SnakeLadderGame.tsx:60-84 | from mounting, play starts after exactly 13 seconds (10 of rules, 3 of countdown) and not a second earlier |
| SnakeLadder.SnakesGoDown | src/components/SnakeLadderGame.tsx:34-46 | every snake sends a token to a lower tile on the board |
| SnakeLadder.LaddersGoUp | src/components/SnakeLadderGame.tsx:48-57 | every ladder lifts a token to a higher tile, at most 100 |
| SnakeLadder.HeadsAreNotFeet | src/components/SnakeLadderGame.tsx:34-57 | no tile is both a snake head and a ladder foot, so the lookup order does not matter |
| SnakeLadder.Advance | src/components/SnakeLadderGame.tsx:168-170 | a roll moves a token by its value, stopping at tile 100 |
| SnakeLadder.OvershootReachesFinish | src/components/SnakeLadderGame.tsx:168-170 | any roll that would pass tile 100 stops on it: no exact landing is needed |
| SnakeLadder.Slide | src/components/SnakeLadderGame.tsx:192-202 | a token on a snake head goes down to its tail, on a ladder foot up to its top, and stays elsewhere |
| SnakeLadder.SubstitutesExact | src/components/SnakeLadderGame.tsx:230-241 | the computer's alternatives to a ladder foot are exactly the tiles within two of it, past its old tile, on the board and not ladder feet, each once and in increasing order |
| SnakeLadder.Alternatives | src/components/SnakeLadderGame.tsx:230-241 | the collecting loop yields exactly those substitute tiles |
| SnakeLadder.ComputerLandingRedirect | src/components/SnakeLadderGame.tsx:222-245 | the computer takes the clamped sum unless that is a ladder foot and the coin says avoid it; then it takes a substitute tile |
| SnakeLadder.ComputerTarget | src/components/SnakeLadderGame.tsx:222-245 | the computer turn's target computation agrees with that landing rule |
| SnakeLadder.Game.constructor | src/components/SnakeLadderGame.tsx:10-29 | both tokens on tile 1, the player to move, no sixes, a 7-minute clock, rules showing |
| SnakeLadder.Game.MovePlayer | src/components/SnakeLadderGame.tsx:168-220 | a third six sends the player to tile 1 and passes the turn; another six moves without snakes, ladders or a win check and keeps the turn; any other roll clears the sixes, slides, and either wins or passes the turn with the popup |
| SnakeLadder.Game.RollDice | src/components/SnakeLadderGame.tsx:141-166 | a roll does nothing unless it is the player's turn in play with no popup; otherwise the die shows the roll and the player moves by it |
| SnakeLadder.Game.ComputerTurn | src/components/SnakeLadderGame.tsx:222-294 | the computer's six (not its third) leaves it in place with the turn; a third six sends it to tile 1 and passes the turn; other rolls land by the landing rule and slide, and reaching tile 100 ends and completes the game |
| SnakeLadder.Game.ComputerLands | src/components/SnakeLadderGame.tsx:271-292 | the computer slides from its target; on tile 100 the game ends and completes, elsewhere the turn passes to the player |
| SnakeLadder.Game.TimeUp | src/components/SnakeLadderGame.tsx:92-109 | at time-out the game ends; a player ahead gets the win screen, a tie or a player behind completes the game directly |
| SnakeLadder.Game.ClockStep | src/components/SnakeLadderGame.tsx:86-112 | while the game runs the clock loses one second, and once ended nothing changes; the last second ends the game, with the win screen for a player ahead and completion for a tie or a player behind |
| SnakeLadder.Game.Tick | src/components/SnakeLadderGame.tsx:60-133 | one second: the opening advances and starts play with the turn popup; after it the popup loses a second, the win screen's timer loses a second while above 0, the clock loses a second until the game ends, and the game is completed exactly when it was, or the win timer reaches 0, or the last second of the clock finds the player not ahead |
| SnakeLadder.SixSkipsSnake | src/components/SnakeLadderGame.tsx:172-190 | a six onto tile 16, a snake head, is not bitten |
| SnakeLadder.OvershootWins | src/components/SnakeLadderGame.tsx:168-213 | from tile 97 a roll of 5 ends the game on the win screen |
| SnakeLadder.ComputerWinStillCompletes | src/components/SnakeLadderGame.tsx:283-288 | when the computer wins, the game completes without the win screen |
| MemoryMatch.BuildDeck | src/components/MemoryMatchGame.tsx:42-48 | the loop lays out the sixteen cards of the fresh deck |
| MemoryMatch.FreshDeckSymbols | src/components/MemoryMatchGame.tsx:42-48 | the fresh deck holds each of the eight symbols exactly twice and nothing else |
| MemoryMatch.DealtCardsFresh | src/components/MemoryMatchGame.tsx:40-64 | every card of a shuffled deck is a fresh card: id below 16, symbol half its id, face up, unmatched |
| MemoryMatch.DealtIdsDistinct | src/components/MemoryMatchGame.tsx:40-64 | any shuffled deck has distinct card ids |
| MemoryMatch.DealtDeck | src/components/MemoryMatchGame.tsx:40-64 | in any shuffled deck every card has a partner with the same symbol, one of the eight |
| MemoryMatch.Partner | src/components/MemoryMatchGame.tsx:40-64 | finds, for any card of a shuffled deck, the other card of its pair |
| MemoryMatch.ExtraRounds | src/components/MemoryMatchGame.tsx:77 | extra shuffle rounds are one per attempt after the first, none for attempt 1, at most five |
| MemoryMatch.RoundPassesCounts | src/components/MemoryMatchGame.tsx:79-125 | each extra round makes at least two passes, rotates sections once from the third round on, and never repeats the base shuffle |
| MemoryMatch.PassPlanShape | src/components/MemoryMatchGame.tsx:67-128 | the shuffle starts with its base pass, makes it once, adds at least two passes per extra round, and rotates sections once per round from the third |
| MemoryMatch.AttemptPlans | src/components/MemoryMatchGame.tsx:67-128 | attempt 1 is the base shuffle alone; attempt 3 adds two rounds of segment reversal and pair swapping; from attempt 6 on the plan stops growing |
| MemoryMatch.Draw | src/components/MemoryMatchGame.tsx:72 | a random draw reduced below its bound |
| MemoryMatch.SwapAt | src/components/MemoryMatchGame.tsx:73 | exchanges two cards, leaves the rest, and keeps the multiset of cards |
| MemoryMatch.ReverseRange | src/components/MemoryMatchGame.tsx:85-87 | reverses one segment in place, leaves the rest, keeps the multiset |
| MemoryMatch.RotateRange | src/components/MemoryMatchGame.tsx:102-105 | moves a section's first card to its end and the others forward, keeps the multiset |
| MemoryMatch.ReverseSegmentsPass | src/components/MemoryMatchGame.tsx:82-88 | pattern 1 only rearranges the deck and reports its segment size |
| MemoryMatch.FisherYatesPass | src/components/MemoryMatchGame.tsx:70-73 | the base pass only rearranges the deck and reports itself as the base shuffle |
| MemoryMatch.SwapPairsPass | src/components/MemoryMatchGame.tsx:90-96 | pattern 2 only rearranges the deck and reports its interval |
| MemoryMatch.RotateSectionsPass | src/components/MemoryMatchGame.tsx:98-108 | pattern 3 only rearranges the deck and reports itself |
| MemoryMatch.RandomSwapsPass | src/components/MemoryMatchGame.tsx:110-124 | pattern 4 only rearranges the deck, consumes draws forward and reports its swap count |
| MemoryMatch.ExtraRound | src/components/MemoryMatchGame.tsx:79-125 | one extra round only rearranges the deck and runs exactly the passes planned for that round |
| MemoryMatch.EnhancedShuffle | src/components/MemoryMatchGame.tsx:67-128 | the shuffle returns a permutation of its input, and the passes it runs, as each reports itself, are exactly the plan for the attempt number |
| MemoryMatch.Find | src/components/MemoryMatchGame.tsx:230-231 | the first position holding a card id, or nothing exactly when no card has that id |
| MemoryMatch.FindSameIds | src/components/MemoryMatchGame.tsx:241-245 | flipping or matching cards does not move where an id is found |
| MemoryMatch.JudgementByPairs | src/components/MemoryMatchGame.tsx:272-304 | at 5 points a pair, "20 points or 4 pairs" is just "4 pairs", and finding all eight always passes |
| MemoryMatch.Game.constructor | src/components/MemoryMatchGame.tsx:17-35 | no cards, no pairs, no points, 45 seconds, attempt 1, rules showing |
| MemoryMatch.Game.View | src/components/MemoryMatchGame.tsx:313-520 | after the opening the retry screen takes precedence over the win screen, which takes precedence over the board |
| MemoryMatch.Game.InitializeGame | src/components/MemoryMatchGame.tsx:40-64 | deals a shuffled fresh deck with nothing turned or matched, a 6-second memory phase and a full clock, no end screen |
| MemoryMatch.Game.StartMemoryPhase | src/components/MemoryMatchGame.tsx:53-63 | the counters and flags of a new deal |
| MemoryMatch.Game.ClearOutcome | src/components/MemoryMatchGame.tsx:54-63 | no pairs, no points, no end screen |
| MemoryMatch.Game.ResetGame | src/components/MemoryMatchGame.tsx:129-133 | raises the attempt number, winds the retry timer back, and deals again |
| MemoryMatch.Game.FlipCard | src/components/MemoryMatchGame.tsx:227-239 | a click is ignored before play, with two cards up, after judgement, or on a missing, face-up or matched card; otherwise exactly that card turns up and joins the turned list |
| MemoryMatch.Game.TurnPair | src/components/MemoryMatchGame.tsx:241-268 | two turned cards with one symbol are both matched for one more pair; otherwise both turn back down; the turned list empties |
| MemoryMatch.Game.ResolvePair | src/components/MemoryMatchGame.tsx:241-287 | as TurnPair, and the eighth pair brings the judgement with the win screen |
| MemoryMatch.Game.Evaluate | src/components/MemoryMatchGame.tsx:271-304 | judging during play: 20 points or 4 pairs brings the win screen with the board kept; less brings the retry screen, or a completely new deal at once when the retry timer already reads 0 |
| MemoryMatch.Game.MemoryStep | src/components/MemoryMatchGame.tsx:167-185 | the memory phase counts down; at its end every card turns face down and play begins |
| MemoryMatch.Game.TimeOut | src/components/MemoryMatchGame.tsx:187-200 | at time-out the game is judged with the board kept, and the win screen is requested whatever the judgement; a failed game shows the retry screen all the same, or is dealt anew when the retry timer reads 0 |
| MemoryMatch.Game.ClockStep | src/components/MemoryMatchGame.tsx:187-200 | the clock runs only in play before judgement, one second at a time with the board kept; its last second judges the game, and a game judged then has no time left |
| MemoryMatch.Game.WinStep | src/components/MemoryMatchGame.tsx:202-212 | the win screen counts down, and the game is completed exactly when it reaches 0 |
| MemoryMatch.Game.RetryStep | src/components/MemoryMatchGame.tsx:214-225 | the retry screen counts down; at 0 it deals again with the same attempt number |
| MemoryMatch.Game.Tick | src/components/MemoryMatchGame.tsx:135-225 | one second, phase by phase: the opening's end deals a new game in its memory phase; the memory phase counts down; in play the clock second as in ClockStep; after judgement the win or retry timer, completing or dealing anew at 0; otherwise nothing changes |
| MemoryMatch.Game.OpeningStep | src/components/MemoryMatchGame.tsx:136-166 | one second of the rules or the countdown; play starting deals a new game in its memory phase |
| MemoryMatch.Game.PhaseStep | src/components/MemoryMatchGame.tsx:168-225 | one second after the opening: exactly the timer of the phase the game is in advances, with the same outcomes as Tick |
| MemoryMatch.Game.JudgedStep | src/components/MemoryMatchGame.tsx:203-225 | one second after judgement: the win screen counts down to completion, the retry screen to a new deal |
| MemoryMatch.FailedTimeOutShowsRetry | src/components/MemoryMatchGame.tsx:187-200 | a failed time-out shows the retry screen though the win screen was requested |
| MemoryMatch.SecondFailureRedealsAtOnce | src/components/MemoryMatchGame.tsx:214-225 | the second failed game deals again without showing the retry screen |
| MemoryMatch.FirstFailure | src/components/MemoryMatchGame.tsx:187-225 | a first failed game shows the retry screen, deals again and leaves the retry timer at 0 |
| Quiz.MultipleCorrectIsSetEquality | src/components/RomanceQuizGame.tsx:401-404 | for lists without repeats the multiple-choice test is set equality: order does not matter, a missing or extra option fails |
| Quiz.LowerChar | src/components/RomanceQuizGame.tsx:405-407 | lower-casing maps each capital to its small letter, keeps every other character, and leaves no capital |
| Quiz.LowerIdempotent | src/components/RomanceQuizGame.tsx:405-407 | lower-casing twice is lower-casing once |
| Quiz.LowerKeepsSpace | src/components/RomanceQuizGame.tsx:405-407 | lower-casing makes nothing into white space and keeps white space |
| Quiz.TrimStart | src/components/RomanceQuizGame.tsx:407 | drops exactly the leading white space |
| Quiz.TrimEnd | src/components/RomanceQuizGame.tsx:407 | drops exactly the trailing white space |
| Quiz.TrimSlice | src/components/RomanceQuizGame.tsx:407 | trimming keeps a middle slice, drops only white space, and leaves none at either end |
| Quiz.TrimPadded | src/components/RomanceQuizGame.tsx:407 | white space typed around a word is removed by trimming |
| Quiz.TrimEmpty | src/components/RomanceQuizGame.tsx:407 | trimming leaves nothing exactly when the text is all white space |
| Quiz.InputIgnoresCaseAndPadding | src/components/RomanceQuizGame.tsx:405-407 | a typed answer is correct whatever its capitals and the white space around it |
| Quiz.CorrectAnswersCanBeSubmitted | src/components/RomanceQuizGame.tsx:915-920 | a correct answer is always one the submit button accepts |
| Quiz.TypedKeyAccepted | src/components/RomanceQuizGame.tsx:405-407 | typing the key word itself is correct and can be submitted |
| Quiz.KeyAnswer | src/components/RomanceQuizGame.tsx:399-408 | an answer that exactly matches the key is correct and can be submitted |
| Quiz.NumberedIdsDistinct | src/components/RomanceQuizGame.tsx:47-279 | ids numbered 1, 2, 3 ... in pool order are distinct |
| Quiz.Without | src/components/RomanceQuizGame.tsx:473-479 | removing an option keeps every other option and no repeats |
| Quiz.ToggleFlips | src/components/RomanceQuizGame.tsx:473-479 | a click toggles exactly one option in the ticked set, keeps it free of repeats, and two clicks restore it |
| Quiz.Available | src/components/RomanceQuizGame.tsx:333-345 | the unanswered questions are exactly the pool's questions whose ids are not recorded, in pool order and without repeats |
| Quiz.AvailableNothingAnswered | src/components/RomanceQuizGame.tsx:333-345 | with nothing answered every question is available |
| Quiz.TakeRandom | src/components/RomanceQuizGame.tsx:333-345 | a draw takes five questions (or the whole pool if smaller) of the pool, with no id twice |
| Quiz.PassIsThreeCorrect | src/components/RomanceQuizGame.tsx:413-458 | at 10 points an answer, "3 correct or 30 points" is just "3 correct" |
| Quiz.Game.constructor | src/components/RomanceQuizGame.tsx:19-45 | nothing answered or scored, attempt 1, rules showing |
| Quiz.Game.View | src/components/RomanceQuizGame.tsx:496-760 | the question shows exactly after the opening when neither the retry nor the success screen is up |
| Quiz.Game.SelectRandomQuestions | src/components/RomanceQuizGame.tsx:333-345 | the round is five distinct questions of the pool, none answered correctly before when at least five such remain; otherwise the record is cleared |
| Quiz.Game.Evaluate | src/components/RomanceQuizGame.tsx:413-458 | three correct answers complete the game; fewer bring the retry screen |
| Quiz.Game.NextQuestion | src/components/RomanceQuizGame.tsx:461-471 | moves to the next question with nothing chosen and a full clock; on the last question nothing changes |
| Quiz.Game.Conclude | src/components/RomanceQuizGame.tsx:413-458 | after an answer, either the judgement (when the count read says the round is over) or the next question |
| Quiz.Game.Submit | src/components/RomanceQuizGame.tsx:393-459 | a submit is ignored unless enabled; otherwise the answer is counted, a correct one scores and is recorded, and the round-over test reads the count from before the answer plus one only after a correct answer |
| Quiz.Game.Record | src/components/RomanceQuizGame.tsx:410-438 | the answer is counted; a correct one adds 10 points, one correct answer and its id to the record |
| Quiz.Game.TimeUp | src/components/RomanceQuizGame.tsx:365-391 | a time-out counts the question as answered wrongly, and the round ends when this was the fifth; nothing in it tests whether the game is already completed, so a second call counts once more and schedules a second callback |
| Quiz.Game.ResetGame | src/components/RomanceQuizGame.tsx:347-363 | a new round: counts cleared, full clock, attempt raised, new draw; the record of correct answers is kept |
| Quiz.Game.ClearRound | src/components/RomanceQuizGame.tsx:347-362 | the counters of a new round and the attempt raised |
| Quiz.Game.ClearScore | src/components/RomanceQuizGame.tsx:348-356 | back to the first question with nothing chosen, answered or scored |
| Quiz.Game.SelectAnswer | src/components/RomanceQuizGame.tsx:861 | a single-choice click sets the chosen option and nothing else |
| Quiz.Game.HandleMultipleSelect | src/components/RomanceQuizGame.tsx:473-479 | a multiple-choice click toggles that option |
| Quiz.Game.SetInput | src/components/RomanceQuizGame.tsx:904 | typing sets the input text and nothing else |
| Quiz.Game.Tick | src/components/RomanceQuizGame.tsx:308-331 | one second after the opening: the retry screen closing starts a new round and draws it with no clock second; otherwise the retry screen counts down, and the question clock advances as in ClockStep; before that the opening advances and its end draws the first round |
| Quiz.Game.OpeningStep | src/components/RomanceQuizGame.tsx:281-306 | the opening advances, and play starts with a drawn round |
| Quiz.Game.RetryStep | src/components/RomanceQuizGame.tsx:320-331 | the retry screen counts down and closes on a new round with the attempt raised |
| Quiz.Game.ClockStep | src/components/RomanceQuizGame.tsx:308-318 | the question clock loses one second until the game is completed; at 0 the question times out; when that time-out passes the round the effect re-runs on the changed `gameCompleted`, times out again and leaves six answers and two callbacks |
| Quiz.Game.ClockStepGuarded | src/components/RomanceQuizGame.tsx:308-318 | the corrected clock: a completed game or an empty clock is left alone, a second is lost otherwise, a time-out counts one more answer and concludes once, and at most one callback is scheduled |
| Quiz.AtFifthQuestion | src/components/RomanceQuizGame.tsx:393-471 | four questions answered, with a chosen number correct, leave a valid game on the fifth question |
| Quiz.WrongFifthAnswer | src/components/RomanceQuizGame.tsx:439-458 | a wrong fifth answer after three correct leaves the round open and uncompleted |
| Quiz.WrongFifthAnswerWaitsForClock | src/components/RomanceQuizGame.tsx:365-458 | a wrong fifth answer does not end the round; the clock's time-out then passes it |
| Quiz.RightFifthAnswerEndsRound | src/components/RomanceQuizGame.tsx:413-438 | a correct fifth answer after two correct ends and passes the round at once |
| Quiz.FifthTimeOutCallsBackTwice | src/components/RomanceQuizGame.tsx:308-318 | with three correct answers, the fifth question timing out leaves six answers counted and two callbacks |
| Quiz.FifthTimeOutGuardedCallsBackOnce | src/components/RomanceQuizGame.tsx:308-318 | under the corrected clock the same time-out leaves five answers and one callback |
| RomanceQuiz.PoolWellFormed | src/components/RomanceQuizGame.tsx:47-279 | the pool has twenty questions, distinct ids and answerable keys |
| RomanceQuiz.Numbered | src/components/RomanceQuizGame.tsx:47-279 | the ids run 1 to 20 in pool order |
| RomanceQuiz.KeysAnswerable | src/components/RomanceQuizGame.tsx:47-279 | every key has an answer that is accepted |
| RomanceQuiz.FirstDrawFromWholePool | src/components/RomanceQuizGame.tsx:333-345 | the first draw takes from the whole pool |
| FriendshipQuiz.PoolsDifferOnlyInLastWord | src/components/FriendshipGame.tsx:270-277 | the two pools judge every answer alike except on question 20, whose key is "treated" here and "loved" in the Romance Quiz |
| FriendshipQuiz.PoolWellFormed | src/components/FriendshipGame.tsx:47-279 | the pool has twenty questions, distinct ids and answerable keys |
| FriendshipQuiz.Numbered | src/components/FriendshipGame.tsx:47-279 | the ids run 1 to 20 in pool order |
| FriendshipQuiz.KeysAnswerable | src/components/FriendshipGame.tsx:47-279 | every key has an answer that is accepted |
| LoveMaze.Row | src/components/LoveMazeGame.tsx:57-74 | every row of the grid has fifteen cells |
| LoveMaze.Step | src/components/LoveMazeGame.tsx:337-350 | a step goes one cell in its direction, clamped at the grid's edge |
| LoveMaze.MarkedCells | src/components/LoveMazeGame.tsx:57-74 | the gate cells are marked 3 and the finish is the only cell marked 2 |
| LoveMaze.NoFinishOffTopRow | src/components/LoveMazeGame.tsx:57-74 | no row but row 1 holds the finish mark |
| LoveMaze.GateAt | src/components/LoveMazeGame.tsx:355 | the gate found on a cell is there, and none is found exactly when no gate stands there |
| LoveMaze.Move | src/components/LoveMazeGame.tsx:333-363 | a move stays inside the grid |
| LoveMaze.MoveRules | src/components/LoveMazeGame.tsx:333-363 | a move goes wherever the step leads unless that is a wall or a shut gate, then nowhere; so it never lands on either |
| LoveMaze.Walk | src/components/LoveMazeGame.tsx:366-391 | a series of key presses keeps the player inside the grid |
| LoveMaze.WalkAvoidsWallsAndClosedGates | src/components/LoveMazeGame.tsx:330-364 | however the keys are pressed, the player never stands on a wall or a shut gate, so a gate question cannot come up |
| LoveMaze.ClosedGateBars | src/components/LoveMazeGame.tsx:353-358 | a step into the upper shut gate leaves the player in place |
| LoveMaze.GuardStep | src/components/LoveMazeGame.tsx:229-243 | a guard moves to the next cell of its path, back to the first after the last, keeping its path |
| LoveMaze.GuardStepWraps | src/components/LoveMazeGame.tsx:232 | the step is the next index modulo the path length |
| LoveMaze.GuardAfter | src/components/LoveMazeGame.tsx:229-243 | a guard after n seconds keeps its id and its path |
| LoveMaze.LapReturns | src/components/LoveMazeGame.tsx:229-243 | after a whole lap a guard is back where it was |
| LoveMaze.GuardPeriodic | src/components/LoveMazeGame.tsx:229-243 | a patrol repeats with its path length as period |
| LoveMaze.StartIsOpen | src/components/LoveMazeGame.tsx:57-74 | the start is an open cell, not the finish, and no gate blocks it |
| LoveMaze.InitialGuardsValid | src/components/LoveMazeGame.tsx:85-116 | the placed guards patrol away from the start and the finish |
| LoveMaze.InitialBoard | src/components/LoveMazeGame.tsx:83-152 | every game starts on a valid board |
| LoveMaze.PatrolsOnOpenCells | src/components/LoveMazeGame.tsx:85-116 | patrols keep to open cells, and the second guard walks through both gate cells |
| LoveMaze.StepGuards | src/components/LoveMazeGame.tsx:229-243 | every guard takes one patrol step and keeps a valid patrol |
| LoveMaze.OpenGate | src/components/LoveMazeGame.tsx:304-308 | a correct answer opens exactly that gate and moves none |
| LoveMaze.FormatTime | src/components/LoveMazeGame.tsx:393-397 | the clock shows whole minutes and the seconds left over |
| LoveMaze.FullTimeIsFiveMinutes | src/components/LoveMazeGame.tsx:393-397 | the full 300 seconds read 5:00 |
| LoveMaze.Game.constructor | src/components/LoveMazeGame.tsx:34-55 | the player on the start, 3 lives, 300 seconds, attempt 1, rules showing |
| LoveMaze.Game.View | src/components/LoveMazeGame.tsx:414-620 | the maze shows exactly when no retry, success or gate question screen is up; the retry screen comes first |
| LoveMaze.Game.InitializeGame | src/components/LoveMazeGame.tsx:83-152 | guards and shut gates placed, the player on the start with 3 lives and 300 seconds, play on |
| LoveMaze.Game.PlaceBoard | src/components/LoveMazeGame.tsx:85-140 | the guards and shut gates in place, the player on the start |
| LoveMaze.Game.StartPlay | src/components/LoveMazeGame.tsx:140-151 | full lives, no score, full time, play on |
| LoveMaze.Game.ResetCounters | src/components/LoveMazeGame.tsx:140-151 | full lives, no score, full time |
| LoveMaze.Game.ResetGame | src/components/LoveMazeGame.tsx:154-159 | attempt raised, retry timer wound back, play initialised again |
| LoveMaze.Game.GuardCollision | src/components/LoveMazeGame.tsx:274-285 | a caught player loses a life; with none left play stops on the retry screen, otherwise the player goes back to the start |
| LoveMaze.Game.HandleWin | src/components/LoveMazeGame.tsx:287-297 | reaching the finish wins with 100 points, stops play and starts the 3-second confetti |
| LoveMaze.Game.CheckCollisions | src/components/LoveMazeGame.tsx:248-285 | outside play nothing happens; a guard on the player costs a life and sends the player to the start, and the last life ends play on the retry screen; reaching the finish wins; otherwise play, the score and the confetti are kept; no gate question comes up |
| LoveMaze.Game.MovePlayer | src/components/LoveMazeGame.tsx:330-364 | a key is ignored outside play or while a question shows, and a refused move changes nothing; otherwise the player moves as Move says and the new cell is checked: a guard there costs a life and sends the player to the start, and on the last life play stops on the retry screen; reaching the finish wins, stops play and starts 3 seconds of confetti; any other move keeps play, the retry screen, the score and the confetti as they were |
| LoveMaze.Game.SelectAnswer | src/components/LoveMazeGame.tsx:625 | a click on an option of a gate question selects it |
| LoveMaze.Game.AnswerGate | src/components/LoveMazeGame.tsx:299-328 | a right answer opens that gate and resumes play; a wrong one costs a life and returns the player to the start or, with no lives, to the retry screen; in a valid game it does nothing |
| LoveMaze.Game.PlayStep | src/components/LoveMazeGame.tsx:188-272 | one second of play: the guards step on their patrols, the collision check runs on the new positions with its life, restart and retry outcome, and the clock loses a second, stopping play at 0 |
| LoveMaze.Game.TimerStep | src/components/LoveMazeGame.tsx:187-198 | the clock counts down in play; at 0 play stops on the retry screen |
| LoveMaze.Game.ConfettiStep | src/components/LoveMazeGame.tsx:293-296 | after three seconds of confetti the success screen shows |
| LoveMaze.Game.WinStep | src/components/LoveMazeGame.tsx:200-211 | the success screen counts down, and the game is completed exactly when it reaches 0 |
| LoveMaze.Game.RetryStep | src/components/LoveMazeGame.tsx:212-223 | the retry screen counts down; at 0 a new game starts with the attempt raised |
| LoveMaze.Game.Tick | src/components/LoveMazeGame.tsx:77-246 | one second, phase by phase: the opening's end starts a fresh game; play advances as in PlayStep; the confetti, then the success screen, count down to completion; the retry screen counts down to a fresh game with the attempt raised; otherwise nothing changes |
| LoveMaze.Game.OpeningStep | src/components/LoveMazeGame.tsx:77-185 | one second of the rules or the countdown; play starting sets up a fresh game |
| LoveMaze.Game.PhaseStep | src/components/LoveMazeGame.tsx:188-246 | one second after the opening: exactly the timer of the phase the game is in advances, with the same outcomes as Tick |
| LoveMaze.Game.EndStep | src/components/LoveMazeGame.tsx:200-223 | one second once play is over: the confetti, the success screen or the retry screen advances, whichever shows |
| BalloonPop.FreshBalloons | src/components/BonusBalloonGame.tsx:106-108 | twenty balloons with ids 0 to 19, none popped |
| BalloonPop.PoppedCount | src/components/BonusBalloonGame.tsx:123-139 | the popped balloons number at most the balloons |
| BalloonPop.Find | src/components/BonusBalloonGame.tsx:134 | the balloon found has the id, and none is found exactly when no balloon has it |
| BalloonPop.PopInList | src/components/BonusBalloonGame.tsx:126-132 | a click pops every balloon with the id, keeps every id and leaves the others alone |
| BalloonPop.PopAbsent | src/components/BonusBalloonGame.tsx:126-132 | a click on an id no balloon has changes nothing |
| BalloonPop.PopIdempotent | src/components/BonusBalloonGame.tsx:126-132 | a second click on the same balloon changes nothing more |
| BalloonPop.PopCount | src/components/BonusBalloonGame.tsx:123-139 | with distinct ids a click raises the pop count by one exactly when it finds an unpopped balloon, else by zero |
| BalloonPop.NonePoppedCountsZero | src/components/BonusBalloonGame.tsx:106-115 | a list with nothing popped counts zero pops |
| BalloonPop.PassNeedsHalfTheBalloons | src/components/BonusBalloonGame.tsx:218-229 | passing needs half the twenty balloons; ten pass and nine do not |
| BalloonPop.PopAbsentOrPopped | src/components/BonusBalloonGame.tsx:126-139 | a click on a popped balloon changes nothing |
| BalloonPop.FoundIsUnique | src/components/BonusBalloonGame.tsx:134 | with distinct ids the balloon found is the one holding the id |
| BalloonPop.Game.constructor | src/components/BonusBalloonGame.tsx:21-37 | no balloons, no score, 15 seconds, attempt 1, rules showing |
| BalloonPop.Game.View | src/components/BonusBalloonGame.tsx:234-470 | the balloons show exactly after the opening with no end screen; the retry screen comes first |
| BalloonPop.Game.InitializeGame | src/components/BonusBalloonGame.tsx:106-115 | twenty fresh balloons, no score, fifteen seconds, play on |
| BalloonPop.Game.DealBalloons | src/components/BonusBalloonGame.tsx:108-112 | fresh balloons with score and pop count zero, which agree with the pops |
| BalloonPop.Game.ResetGame | src/components/BonusBalloonGame.tsx:117-121 | attempt raised, retry timer wound back, play restarted at once |
| BalloonPop.Game.PopBalloon | src/components/BonusBalloonGame.tsx:123-139 | outside play nothing happens; in play a click on an unpopped balloon pops it and scores one; anything else changes nothing |
| BalloonPop.Game.Evaluate | src/components/BonusBalloonGame.tsx:218-229 | at the end ten or more points show the success screen, fewer the retry screen |
| BalloonPop.Game.ClockStep | src/components/BonusBalloonGame.tsx:200-209 | the clock counts down in play; at its last second play stops and the game is judged |
| BalloonPop.Game.WinStep | src/components/BonusBalloonGame.tsx:69-78 | the success screen counts down, and the game is completed exactly when it reaches 0 |
| BalloonPop.Game.RetryStep | src/components/BonusBalloonGame.tsx:81-90 | the retry screen counts down; at 0 a new game starts straight on the play screen |
| BalloonPop.Game.Tick | src/components/BonusBalloonGame.tsx:41-229 | one second, phase by phase: the opening's end starts a fresh game; in play the clock loses a second and its last judges the game; the success screen counts down to completion; the retry screen counts down to a fresh game; otherwise nothing changes |
| PathSequencer.GameAt | src/components/LovePath.tsx:97-133 | every game returned belongs to the path asked for and sits in the slot asked for: Snake & Ladders, Memory Match, the Friendship Quiz and Bonus Balloons on the crown path; the Love Maze, the love memory-match game, the Romance Quiz and the love balloon game on the love path |
| PathSequencer.EveryGameHasASlot | src/components/CrownPath.tsx:97-131 | every game has one path and one slot, and that slot of that path holds it |
| PathSequencer.CountTrue | src/components/CrownPath.tsx:89-90 | the count of completed games is at most the games, all of them exactly when every flag is set, and 0 exactly when none is |
| PathSequencer.CountAfterSet | src/components/CrownPath.tsx:61-65 | completing a game raises the count by one if it was not yet completed, else not at all |
| PathSequencer.CountMonotone | src/components/CrownPath.tsx:61-65 | setting flags never lowers the count |
| PathSequencer.CompletionIsMonotone | src/components/CrownPath.tsx:61-65 | a completion keeps every earlier completion and never lowers the count |
| PathSequencer.Path.constructor | src/components/CrownPath.tsx:21-28 | the welcome screen, no game completed |
| PathSequencer.Path.CompletedGamesCount | src/components/CrownPath.tsx:89-90 | 0 to 4 completed games, 4 exactly when all are |
| PathSequencer.Path.Shown | src/components/CrownPath.tsx:97-131 | the game on screen is the one in the current slot |
| PathSequencer.Path.StartJourney | src/components/CrownPath.tsx:93-95 | the welcome screen's start opens the path's first game |
| PathSequencer.Path.Back | src/components/CrownPath.tsx:97-131 | back goes to the previous game, or from the first to the welcome screen, keeping every earlier game completed |
| PathSequencer.Path.HandleGameComplete | src/components/CrownPath.tsx:61-82 | exactly that game's flag is set; the next game, or after the last the celebration with confetti, shows; the count rises by at most one |
| PathSequencer.Path.ConfettiDone | src/components/CrownPath.tsx:84-87 | the confetti stops |
| PathSequencer.Path.ReturnToBirthday | src/components/CrownPath.tsx:194-198 | the celebration's button throws confetti and reports the path complete |
| PathSequencer.PlayThrough | src/components/LovePath.tsx:61-82 | completing the four games in turn from the welcome screen reaches the celebration with all four completed |
| BirthdayApp.Next | src/App.tsx:206-210 | forward moves one step, except on the last, and stays among the five |
| BirthdayApp.Prev | src/App.tsx:212-216 | back moves one step, except on the first, and stays among the five |
| BirthdayApp.NextPrevInverse | src/App.tsx:206-216 | back undoes forward except on the last step, forward undoes back except on the first |
| BirthdayApp.FourMovesReachTheEnds | src/App.tsx:206-216 | four moves forward reach the celebration and four back reach the welcome, from any step |
| BirthdayApp.App.constructor | src/App.tsx:48-58 | the welcome step, no path, no game |
| BirthdayApp.App.View | src/App.tsx:228-234 | the crown path shows when chosen, else the love path, else the stepper at its step |
| BirthdayApp.App.ArriveAt | src/App.tsx:200-204 | a changed step to the reveal or the celebration throws confetti |
| BirthdayApp.App.NextStep | src/App.tsx:206-210 | the stepper moves forward |
| BirthdayApp.App.PrevStep | src/App.tsx:212-216 | the stepper moves back |
| BirthdayApp.App.ConfettiDone | src/App.tsx:200-204 | the confetti stops |
| BirthdayApp.App.HandlePathSelection | src/App.tsx:176-194 | the choice is recorded; "queen" shows the crown path, "love" the love path, and any other moves the stepper forward |
| BirthdayApp.App.HandleCrownPathComplete | src/App.tsx:218-221 | the crown path closes and the stepper moves forward |
| BirthdayApp.App.HandleLovePathComplete | src/App.tsx:223-226 | the love path closes and the stepper moves forward |
| BirthdayApp.App.StartGame | src/App.tsx:138-145 | the balloon game starts with no score and no balloon clicked |
| BirthdayApp.App.GameTimeout | src/App.tsx:142-144 | the balloon game stops |
| BirthdayApp.App.PopBalloon | src/App.tsx:147-154 | a balloon not clicked before is added and scores ten; a second click changes nothing; the score stays ten per distinct balloon |
| BirthdayApp.ScoreAtMostAllBalloons | src/App.tsx:425-429 | clicks on the twelve balloons score at most 120 |

## Left out

- Floating-point balloon motion, balloon positions, sizes and colours are not modelled. The same goes for confetti pieces, floating hearts and other animations.
- Sound (`playSound`, Web Audio) is left out, as is the photo upload (`FileReader`) in Snake & Ladders. Both are browser I/O.
- The distribution of `Math.random` is not modelled. Each draw is a parameter, so every contract holds for every possible draw.
- `setTimeout` delays that postpone a screen change or a callback (0.5 to 5 seconds) happen at once, except the maze's confetti. The model does not capture what the state looks like during such a delay.
- Quiz.Game.Submit: the 3-second delay after a correct answer, and the 1-second delay after a wrong one, happen at once, yet nothing in the answer handler stops the question clock. The clock effect (RomanceQuizGame.tsx:309-318) tests neither `currentQuestionAnswered` nor a result flag, and `showResult` is never set. So in the app, an answer given with no more seconds left on the clock than the delay also runs the clock out. `handleTimeUp` then counts that question a second time: a correct second answer with 2 seconds left leaves three questions counted after two, so the round ends a question early. After a passing fifth answer it can also schedule `onComplete` a second time. The model's answer goes straight to the next question with a full clock, so it has none of these outcomes.
- Timer effects are ordered into one `Tick` per second. React's own scheduling of effects and renders is not modelled.
- Question texts, options, hints and the `showResult`, `showTimeUp` and `showHint` display flags are left out. The answer keys are modelled.
- Quiz.Game.ClockStep: the "Time's Up!" screen that the second time-out shows over the success screen is part of the left-out `showTimeUp` display; the model records the extra answer and the second callback.
- Quiz.Lower: only the ASCII capitals are lower-cased, not the full Unicode case mapping of `toLowerCase`.
- Quiz.IsSpace: it covers the white space and line terminators that `trim` removes, as a fixed character list.
- MemoryMatch.EnhancedShuffle: it requires a non-empty deck. The component always passes the sixteen-card deck.
- SnakeLadder.Game.ComputerTurn: it reads the computer's six count fresh. The component's delayed call reads it from a stale closure, which the model does not capture.
- SnakeLadder.Game.RollDice: the 600 ms rolling animation and its `isRolling` flag are not modelled.
- BalloonPop.Game.PopBalloon: the handler's `find` reads the list from before the `map` update. The model reads the same list, but it does not model a second click landing before React re-renders.
- LoveMaze.GuardStep: guards are modelled by their path index. The `x`/`y` copies the component keeps are always `path[index]`.
- LoveMaze.FormatTime: it returns minutes and seconds. The zero padding of the text is left out.
- The welcome screens of the two paths, and the reveal, memory-lane and celebration steps of the app, are static UI and are left out.
- The "glam" path card has no path component. Choosing it just moves the stepper, as `BirthdayApp.App.HandlePathSelection` states.
- The `onBack` buttons that leave a path for the app are not modelled, and neither is the teardown of timers on unmount. The back buttons between games of a path are modelled.
- `LoveMemoryMatchGame.tsx` and `LoveBalloonGame.tsx` are not part of this model.

## Findings

| source | as written | input that shows it | evidently intended | confidence | as-written member | corrected member |
|---|---|---|---|---|---|---|
| src/components/RomanceQuizGame.tsx:309-318 | the time-out branch (here and at the same lines of FriendshipGame.tsx) of the question-clock effect does not test `gameCompleted`, yet `gameCompleted` is one of the effect's dependencies, so the time-out that passes the round makes the effect run `handleTimeUp` again | three correct answers, then the fifth question's clock runs out: six questions are counted as answered and `onComplete` is scheduled twice | the time-out branch also requires `!gameCompleted`, as the clock branch does and as Memory Match's clock effect does at MemoryMatchGame.tsx:188-200, so one time-out counts once and calls back once | high, not executed | Quiz.FifthTimeOutCallsBackTwice | Quiz.Game.ClockStepGuarded |
