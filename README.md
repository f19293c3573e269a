# Mystery Doors game hub, modelled in Dafny

This project models the game logic of a browser game hub. The hub has
three parts:

- a Mystery-Doors puzzle campaign, with score, levels, streaks, lives,
  hints, a game-over cooldown and a saved run;
- a local top-50 leaderboard;
- a set of mini-games around it: an endless runner, an emoji-guessing
  quest, AI trivia, and a reward chest that opens every four hours.

Each screen or service is one module:

- `Types` holds the shared records: puzzle, trivia question, player stats,
  leaderboard entry and the screen enumeration.
- `Clock` holds number rendering and parsing, `Math.round`/`Math.ceil`, and
  the `m:ss` countdown format with its round trip.
- `Runner` models the endless runner:
  - `World` is the simulation record together with the run counters;
  - `Step`, `LaneChange` and `Started` say what one frame, one input and
    one restart do;
  - the class `RunnerGame` updates its record in place, and its methods are
    proved against those functions;
  - lemmas prove the spacing invariant of the track and its consequences:
    at most one object in the collision window, at most one hit per frame.
- `MysteryDoors` models the application shell:
  - the points formula, the result rules, hints and the cooldown arithmetic,
    as functions with lemmas;
  - the class `App`, whose handlers drive the screen state and the stored
    save and game-over stamp.
- `LeaderboardService` models the leaderboard:
  - the stable descending sort is specified by insertion after ties;
  - the read (sort, cut to 50) and the save (append, sort, cut) are proved
    sorted, bounded, stable and loss-free where there is room;
  - `ScoreStore` is the storage key.
- `EmojiQuestGame` models the emoji quest:
  - ASCII trimming and lower-casing for the exact-match test;
  - the screen class holds its state hooks in one record, for the lives,
    hints, death lock, hint refill and answer check.
- `RewardChest` models the chest's readiness arithmetic and the `h:mm:ss`
  format with its round trip.
- `PuzzleScreen` is the puzzle view: select once, continue, the `willDie`
  warning tied to the shell's game-over rule, and one hint per view.
- `Trivia` is the trivia screen: one answer per question, ten points per
  right answer.

Wall-clock time (`Date.now()`, used by the shell, the emoji quest and the
reward chest) is an integer number of milliseconds passed in by the caller.
The runner's clock is the animation-frame timestamp, a real number of
milliseconds, also passed in. Random draws, the sway term and the remote answer
checker are method parameters.

## Model

| member | source | states |
|---|---|---|
| Clock.NatToString | App.tsx:263 | a number's decimal text is all digits, one digit exactly below 10, and has no leading zero |
| Clock.NatToStringRoundTrip | App.tsx:263 | reading a rendered number back gives the number |
| Clock.TwoDigits | App.tsx:263 | `padStart(2, '0')` of a value below 60 is exactly two digits that read back as the value |
| Clock.Ceil | App.tsx:91 | `Math.ceil` is the least integer at or above its argument |
| Clock.CeilSeconds | App.tsx:91 | milliseconds rounded up to seconds: positive exactly for a positive input, and within one second above the input |
| Clock.Round | App.tsx:195 | `Math.round` is within one half of its argument, with halves rounded up |
| Clock.FormatMinSecRoundTrip | App.tsx:260-264 | the `m:ss` text has two fields; the seconds field is two digits below 60; minutes*60+seconds is the input (the emoji quest's `formatTime` at components/games/EmojiQuestScreen.tsx:98-102 is the same function) |
| Runner.GridRem | components/games/RunnerGameScreen.tsx:118 | JavaScript `% 200` on numbers: a non-negative dividend leaves a remainder in [0,200), a negative one a remainder in (-200,0], and the dividend minus the remainder is a whole multiple of 200 |
| Runner.Project | components/games/RunnerGameScreen.tsx:99-105 | depth below 1 projects to (0,0,0); otherwise the scale is in (0,1) with scale*(600+z) = 600, x2d = x*scale and y2d = (y-200)*scale |
| Runner.ProjectScaleDecreases | components/games/RunnerGameScreen.tsx:99-105 | a deeper point gets a strictly smaller scale |
| Runner.SpawnInterval | components/games/RunnerGameScreen.tsx:141 | the spawn interval is never below 400 ms |
| Runner.SpawnLane | components/games/RunnerGameScreen.tsx:143 | a draw in [0,1) gives a lane in 0..2 |
| Runner.Started | components/games/RunnerGameScreen.tsx:57-79 | a fresh run: lane 1, speed 40, distance 0, no objects, no shake, score 0, 3 lives, level 1, speed display 100, playing, and well formed |
| Runner.WindowHoldsAtMostOne | components/games/RunnerGameScreen.tsx:144-169 | in a spaced list no two objects are inside the 1150..1250 collision window |
| Runner.SpawnKeepsSpacing | components/games/RunnerGameScreen.tsx:144-155 | when no object is closer than 300, appending a new object at depth 0 keeps the list in decreasing depth with gaps of at least 300 |
| Runner.NoHitsShallow | components/games/RunnerGameScreen.tsx:169 | objects that stay at or before the window's near edge after moving are never hit |
| Runner.AtMostOneHit | components/games/RunnerGameScreen.tsx:160-193 | in a spaced list at most one object (obstacle or coin) is hit in a frame |
| Runner.AdvanceAllWellFormed | components/games/RunnerGameScreen.tsx:160-198 | moving every object by the same speed, resolving hits and dropping those past 1800 keeps the list well formed, and moves the depth bound by exactly the speed |
| Runner.ConsumedNeverHit | components/games/RunnerGameScreen.tsx:169-193 | a hit object becomes inactive, and an inactive object is never hit again, so each object scores or costs a life at most once |
| Runner.AdvanceAllPrunes | components/games/RunnerGameScreen.tsx:195-197 | no object kept after a frame lies deeper than 1800 |
| Runner.DepthBound | components/games/RunnerGameScreen.tsx:160-162 | every object of a well-formed list is at most as deep as its first one |
| Runner.KinematicsWellFormed | components/games/RunnerGameScreen.tsx:117-138 | travel, scroll, ramp, drift and shake decay keep every bound of the world |
| Runner.SpawningWellFormed | components/games/RunnerGameScreen.tsx:141-157 | the spawn decision keeps the world well formed |
| Runner.CollisionsWellFormed | components/games/RunnerGameScreen.tsx:160-198 | the object loop keeps a running world well formed: lives stay in 0..3, the score stays a multiple of 50, and game over means no lives left |
| Runner.StepKeepsWellFormed | components/games/RunnerGameScreen.tsx:115-199 | a whole frame keeps a running world well formed, including the spacing invariant |
| Runner.StepDistanceAndGrid | components/games/RunnerGameScreen.tsx:117-118 | each frame adds exactly the speed to the distance, and the grid offset stays in [0,200) |
| Runner.StepDifficultyRamp | components/games/RunnerGameScreen.tsx:128-132 | the speed never drops; it grows by exactly 2 if and only if the new distance passes level*15000, and otherwise stays; the level becomes min(level+1, 5) under the same condition and otherwise stays; the speed display is floor(speed*100/40) |
| Runner.StepSpeedKeepsGrowingAtMaxLevel | components/games/RunnerGameScreen.tsx:128-131 | at level 5 past 75000, every frame speeds up by 2 again while the level stays 5 |
| Runner.StepSmoothing | components/games/RunnerGameScreen.tsx:135-179 | the player moves 15% of the way to its lane's centre, stays between its old position and the target and inside [-300,300]; the shake is 30 exactly in a frame that costs a life, otherwise 0.9 times the old one, and never negative |
| Runner.StepSpawnRule | components/games/RunnerGameScreen.tsx:141-157 | a new active object at depth 0 joins the list exactly when the spawn interval has passed and no object is nearer than 300; the spawn time moves only when something spawns |
| Runner.StepCollisions | components/games/RunnerGameScreen.tsx:169-197 | a frame costs at most one life or scores at most one coin of 50, never both; a lost life sets the shake to 30; the run is over exactly when no life is left |
| Runner.FrameIdleOutsideRun | components/games/RunnerGameScreen.tsx:107-113 | outside a run a frame changes nothing |
| Runner.LaneChangeRules | components/games/RunnerGameScreen.tsx:42-55 | nothing happens unless playing; the lane stays in 0..2; left from lane 0 and right from lane 2 change nothing and are silent; the click sounds exactly when the lane changes, by one step in the pressed direction, and the tilt becomes (lane-1)*-0.1 |
| Runner.ThreeRightsFromLeftLane | components/games/RunnerGameScreen.tsx:45-47 | three presses to the right from lane 0 end in lane 2 |
| Runner.UnfoldAt | components/games/RunnerGameScreen.tsx:160-198 | processing the object at index i adds its resolved self, unless removed, and its hit to the already-processed suffix |
| Runner.PartialEnds | components/games/RunnerGameScreen.tsx:160-198 | before the reverse loop nothing is processed, and after it the whole collision pass is |
| Runner.SpliceStep | components/games/RunnerGameScreen.tsx:195-197 | replacing index i by its resolved object, or splicing it out, leaves the unprocessed prefix followed by the processed suffix from i |
| Runner.PartialStep | components/games/RunnerGameScreen.tsx:160-198 | one turn of the reverse loop extends the processed suffix by one index |
| Runner.RunnerGame.constructor | components/games/RunnerGameScreen.tsx:16-37 | the game as first shown: the initial record and counters, not yet playing |
| Runner.RunnerGame.StartGame | components/games/RunnerGameScreen.tsx:57-79 | the record and counters become those of a fresh run |
| Runner.RunnerGame.HandleLaneChange | components/games/RunnerGameScreen.tsx:42-55 | the new state and the click are those of `LaneChange`, and the world stays well formed |
| Runner.RunnerGame.TrySpawn | components/games/RunnerGameScreen.tsx:141-157 | the record is updated exactly as the spawn rule says |
| Runner.RunnerGame.ResolveHit | components/games/RunnerGameScreen.tsx:169-193 | a hit object is consumed; an obstacle hit sets shake 30, costs a life and ends the run on the last one; a coin hit scores 50; nothing else changes |
| Runner.RunnerGame.ProcessObject | components/games/RunnerGameScreen.tsx:161-197 | one loop body: the object moves, spins if a coin, is resolved, and is spliced out past 1800 |
| Runner.RunnerGame.UpdateObjects | components/games/RunnerGameScreen.tsx:160-198 | the reverse loop with in-place splicing gives exactly the collision pass over the list |
| Runner.RunnerGame.UpdateGameLogic | components/games/RunnerGameScreen.tsx:115-199 | the mutated record and counters are exactly one `Step` of the old world |
| Runner.RunnerGame.Tick | components/games/RunnerGameScreen.tsx:107-113 | a frame simulates only while playing, and keeps the game well formed |
| MysteryDoors.Points | App.tsx:190-195 | the points are within one half of (100+10*level+5*streak) times 0.75, 1 or 1.5 |
| MysteryDoors.PointsInIntegers | App.tsx:190-195 | the rounded points are (3b+2)/4 on easy, b on medium and (3b+1)/2 on hard, for the base b |
| MysteryDoors.PointsAtLeast75 | App.tsx:194-195 | from a level and streak that are not negative, a solved puzzle is worth at least 75 points |
| MysteryDoors.ResultRules | App.tsx:185-227 | a success adds the points, one level and one streak, and one hint exactly when the old level is a multiple of 3; a failure with more than one life costs a life and the streak; the last failure only zeroes the lives and leads to game over |
| MysteryDoors.GameOverExactlyWhenLivesRunOut | App.tsx:211-225 | the game-over screen follows exactly when the lives reach zero |
| MysteryDoors.HintUsed | App.tsx:255-258 | using a hint removes one, never going below zero, and changes nothing else |
| MysteryDoors.CooldownBounds | App.tsx:86-97 | the countdown is never negative, positive exactly while cooling, the remaining milliseconds rounded up to seconds, and at most 90 once the stamp is not in the future |
| MysteryDoors.App.constructor | App.tsx:27-34 | the shell starts at the menu with the initial stats (level 1, 3 hints, 3 lives, medium) and the stored save and stamp |
| MysteryDoors.App.CheckCooldown | App.tsx:86-97 | the published countdown and the returned flag are those of the cooldown arithmetic |
| MysteryDoors.App.GameStateChanged | App.tsx:85-98 | the effect that runs after every screen change publishes the countdown of the stored stamp at that moment |
| MysteryDoors.App.CooldownTick | App.tsx:100-105 | the cooldown screen goes back to the menu once the cooldown is over; no other screen changes |
| MysteryDoors.App.StartGame | App.tsx:125-152 | a running cooldown shows the cooldown screen and changes nothing else; otherwise the save is cleared and the initial stats at the chosen difficulty start loading |
| MysteryDoors.App.PuzzleArrived | App.tsx:148-151 | the generated puzzle is shown |
| MysteryDoors.App.HandleNextLevel | App.tsx:229-232 | the next puzzle starts loading |
| MysteryDoors.App.HandleExitGame | App.tsx:172-183 | back to the menu; the run is saved only while a puzzle is being played with lives left |
| MysteryDoors.App.HandleGameResult | App.tsx:185-227 | the stats and screen follow the result rules; on the last life the game-over time is stamped and the save cleared, otherwise both are kept |
| MysteryDoors.App.UseHint | App.tsx:255-258 | the stats become those with one hint used |
| MysteryDoors.CooldownGatesRestart | App.tsx:86-130 | after the last life is lost and the effect has run for the new screen, starting a run is refused exactly while less than 90 s have passed since the game over, and allowed afterwards |
| LeaderboardService.InsertAfterTiesCount | services/leaderboardService.ts:25 | inserting adds exactly the new entry |
| LeaderboardService.InsertAfterTiesSorted | services/leaderboardService.ts:25 | inserting after ties keeps a list sorted by descending score |
| LeaderboardService.InsertAfterTiesStable | services/leaderboardService.ts:25 | the newcomer comes after every earlier entry of its own score |
| LeaderboardService.SortByScoreCount | services/leaderboardService.ts:13 | the sort keeps every entry exactly as often as it occurs |
| LeaderboardService.SortByScoreSorts | services/leaderboardService.ts:13 | the sort's result is in descending score order and is a permutation of its input |
| LeaderboardService.SortByScoreStable | services/leaderboardService.ts:13 | entries with the same score keep their relative order |
| LeaderboardService.SortSorted | services/leaderboardService.ts:22-25 | sorting an already sorted list changes nothing |
| LeaderboardService.InsertAtEnd | services/leaderboardService.ts:23-25 | an entry scoring at most every entry of a list goes at its end |
| LeaderboardService.Top | services/leaderboardService.ts:13 | `slice(0, 50)` is the prefix of length min(n, 50) |
| LeaderboardService.Board | services/leaderboardService.ts:6-18 | the board read back is sorted, at most 50 long, and made only of stored entries |
| LeaderboardService.EmptyOrUnreadableIsEmpty | services/leaderboardService.ts:8-17 | nothing stored, and storage that does not read back, both give the empty board |
| LeaderboardService.SavedInsertsAfterTies | services/leaderboardService.ts:22-25 | saving into a sorted board inserts the newcomer after every entry of at least its score |
| LeaderboardService.SavedFacts | services/leaderboardService.ts:20-30 | the saved list is sorted, at most 50 long and made of the old entries and the new one; with room it is one longer and keeps the newcomer; every dropped entry scores at most every kept one |
| LeaderboardService.ScoreStore.GetLeaderboard | services/leaderboardService.ts:6-18 | the result is the board of the stored value |
| LeaderboardService.ScoreStore.SaveScore | services/leaderboardService.ts:20-30 | a write that succeeds stores the saved list of the current board and the entry; a write that fails leaves the storage unchanged |
| EmojiQuestGame.TrimStartFacts | components/games/EmojiQuestScreen.tsx:109 | trimming the front keeps a suffix that does not start with white space and drops only white space |
| EmojiQuestGame.TrimEndFacts | components/games/EmojiQuestScreen.tsx:109 | trimming the back keeps a prefix that does not end with white space and drops only white space |
| EmojiQuestGame.TrimIsInnerPiece | components/games/EmojiQuestScreen.tsx:109 | `trim()` keeps one contiguous piece with no white space at either end and drops only white space around it |
| EmojiQuestGame.TrimIdempotent | components/games/EmojiQuestScreen.tsx:109 | trimming twice is trimming once |
| EmojiQuestGame.LowerConcat | components/games/EmojiQuestScreen.tsx:109 | lower-casing works character by character across a concatenation |
| EmojiQuestGame.TrimStartPad | components/games/EmojiQuestScreen.tsx:109 | leading white space makes no difference to the front trim |
| EmojiQuestGame.TrimEndPad | components/games/EmojiQuestScreen.tsx:109 | trailing white space makes no difference to the back trim |
| EmojiQuestGame.TrimStartSuffix | components/games/EmojiQuestScreen.tsx:109 | trailing white space makes no difference to the full trim |
| EmojiQuestGame.TrimPadding | components/games/EmojiQuestScreen.tsx:109 | white space on both sides makes no difference to the trim |
| EmojiQuestGame.NormalizeIgnoresCaseAndPadding | components/games/EmojiQuestScreen.tsx:109 | the exact-match key ignores surrounding white space and the case of ASCII letters |
| EmojiQuestGame.BlankIffAllSpace | components/games/EmojiQuestScreen.tsx:105 | a guess is rejected as blank exactly when it is all white space |
| EmojiQuestGame.CountdownBounds | components/games/EmojiQuestScreen.tsx:52-74 | a running timer shows at least one second, the remaining milliseconds rounded up, and at most the period's seconds once its start is not in the future |
| EmojiQuestGame.EmojiQuestScreen.constructor | components/games/EmojiQuestScreen.tsx:24-42 | the screen starts with 3 lives, 3 hints, no score, no lock and no refill, loading its first quest |
| EmojiQuestGame.EmojiQuestScreen.LoadLevel | components/games/EmojiQuestScreen.tsx:81-87 | during the lock nothing changes; otherwise feedback, guess and hint are cleared and loading starts |
| EmojiQuestGame.EmojiQuestScreen.QuestArrived | components/games/EmojiQuestScreen.tsx:88-95 | the generated quest is shown and loading ends |
| EmojiQuestGame.EmojiQuestScreen.SetGuess | components/games/EmojiQuestScreen.tsx:246 | typing sets the guess and clears the feedback |
| EmojiQuestGame.EmojiQuestScreen.Tick | components/games/EmojiQuestScreen.tsx:47-76 | after two minutes the lock ends with 3 lives and a reload; after five minutes the refill gives exactly 2 hints; running timers show their seconds rounded up; the invariants hold |
| EmojiQuestGame.EmojiQuestScreen.Submit | components/games/EmojiQuestScreen.tsx:104-112 | ignored for a blank guess, a running check or the lock; with no quest nothing changes; a case- and padding-insensitive exact match scores at once; anything else starts the remote check |
| EmojiQuestGame.EmojiQuestScreen.VerdictArrived | components/games/EmojiQuestScreen.tsx:113-135 | a right verdict scores a point; a wrong one costs a life and on the last starts the lock at now; the check ends either way |
| EmojiQuestGame.EmojiQuestScreen.CheckFailed | components/games/EmojiQuestScreen.tsx:131-135 | a failed check ends with nothing else changed |
| EmojiQuestGame.EmojiQuestScreen.UseHint | components/games/EmojiQuestScreen.tsx:138-149 | a hint is shown and spent only with one left and none shown; spending the last starts the refill clock at now |
| RewardChest.CalculateTime | components/RewardChest.tsx:22-34 | ready exactly when 14400000 ms have passed since the last claim, and exactly when the time left is 0; otherwise elapsed plus time left is the cooldown; the time left is never negative and at most the cooldown once the claim is not in the future |
| RewardChest.WaitingOnlyHelps | components/RewardChest.tsx:23-33 | later, the chest is at least as ready and the time left at most as long, falling by no more than the time waited |
| RewardChest.HmsDecomposes | components/RewardChest.tsx:41-44 | minutes and seconds are below 60 and h*3600+m*60+s is floor(ms/1000) |
| RewardChest.FormatHmsRoundTrip | components/RewardChest.tsx:41-46 | the `h:mm:ss` text has three fields, the last two exactly two digits below 60, and they read back as the whole seconds |
| RewardChest.ClaimOnlyWhenReady | components/RewardChest.tsx:48-55 | a click claims the reward exactly when the cooldown has passed |
| PuzzleScreen.WillDieMeansGameOver | components/GameScreen.tsx:80-82 | the view's `willDie` warning holds exactly when the shell's result rules end the run and show game over |
| PuzzleScreen.PuzzleView.constructor | components/GameScreen.tsx:24-26 | a fresh view has nothing selected, nothing revealed and no hint |
| PuzzleScreen.PuzzleView.HandleSelect | components/GameScreen.tsx:30-42 | the first selection is recorded and revealed with the right-or-wrong sound; once revealed, selections are ignored |
| PuzzleScreen.PuzzleView.HandleContinue | components/GameScreen.tsx:44-57 | nothing without a selection; otherwise it reports exactly whether the selection is the correct index, with the retry sound exactly when wrong with more than one life |
| PuzzleScreen.PuzzleView.HandleHint | components/GameScreen.tsx:59-64 | a hint is used exactly when some remain and none is shown yet |
| PuzzleScreen.HintAtMostOnce | components/GameScreen.tsx:59-64 | two hint requests on one view spend at most one hint |
| Trivia.TriviaScreen.constructor | components/games/AITriviaScreen.tsx:18-22 | no question, loading, score 0, nothing answered |
| Trivia.TriviaScreen.LoadQuestion | components/games/AITriviaScreen.tsx:24-27 | loading starts and the answer is cleared; the score is kept |
| Trivia.TriviaScreen.QuestionArrived | components/games/AITriviaScreen.tsx:29-34 | the generated question is shown and loading ends |
| Trivia.TriviaScreen.LoadFailed | components/games/AITriviaScreen.tsx:31-35 | failed generation only ends loading |
| Trivia.TriviaScreen.HandleSelect | components/games/AITriviaScreen.tsx:42-53 | ignored once answered or with no question; otherwise the pick is recorded and only a right one adds 10; the score stays ten times the number of right answers |
| Trivia.OneScorePerQuestion | components/games/AITriviaScreen.tsx:43-50 | two picks on one question gain 0 or 10 points, never more |

## Left out

- Floating point: runner positions, speeds and rotations are Dafny `real`s. Rounding of IEEE doubles is not modelled.
- `Math.random()` and `Math.sin` in the runner are inputs to the frame method: the lane roll, kind roll, spawn rotation and sway.
- Runner rendering (the canvas drawing functions) is not modelled. Neither is the `requestAnimationFrame` wiring, resize handling or the keyboard and touch listeners.
- React asynchrony: every state setter is applied at once. Queued updaters such as `setLives(l => ...)` and closures that see an older render are not modelled. The runner's score, lives, level and phase are plain fields.
- The emoji quest's effect re-runs `loadLevel` whenever `deathTime` or `hintEmptyTime` changes (components/games/EmojiQuestScreen.tsx:45-79). So spending the last hint at once hides the hint just bought and clears the guess, and so does the end of the hint refill. `UseHint` and `Tick` do not model that reload. The lock's end does reload, as modelled in `Tick`.
- The shell's cooldown effect (App.tsx:85-108) runs after every screen change. The model exposes it as `GameStateChanged`, for the caller to run after each screen change; `StartGame` reads the last published countdown, as the source does.
- Text handling is ASCII only: `trim` removes the six ASCII white-space characters and `toLowerCase` maps only A-Z. Unicode white space and case folding are not modelled.
- Storage is an abstract value:
  - `localStorage` and `JSON.parse`/`JSON.stringify` are fields and datatypes;
  - a game-over stamp that is missing or does not parse as a number reads as `None`, which is how the shell's check treats both;
  - stored leaderboard entries are well-typed records; entries whose score is not a number are not modelled.
- Sounds and music (the audio manager) are notifications. They appear only as returned sound values where a handler's choice of sound is part of its logic.
- The network services (puzzle, quest and trivia generation, and the answer checker) are callers of the `...Arrived` methods or their `correct` argument. The generator's built-in fallback content is not modelled.
- `handleResumeGame`, `handleSaveScore`, `handleClaimReward`, settings, sidebar and all other screens are presentation or plumbing and are not modelled. Of the reward chest, only the chest component is modelled.
- `Clock.FormatMinSec` and `RewardChest.FormatHms` take natural numbers, since every caller passes a non-negative count.
- Time is an integer number of milliseconds passed in by the caller. `Submit`, `VerdictArrived` and `UseHint` of the emoji quest require it to be positive. The source uses 0 to mean "no lock" and "no refill", and `Date.now()` is always positive.
- The emoji quest's exact match with no quest loaded throws inside a `try` in the source; `Submit` models this as a check that ends with nothing else changed.
