/** The Mystery-Doors progression rules of the application shell: points for
    a solved puzzle, lives and streaks, hints, the game-over cooldown, the
    start gate and the save written when leaving a run.

    Storage keys are fields of `App` (`saved` for the saved run,
    `lastGameOver` for the game-over time stamp); time is an integer
    number of milliseconds passed in by the caller. */
module MysteryDoors {
  import opened Types
  import Clock

  const InitialStats: PlayerStats := PlayerStats(0, 1, 3, 0, 3, Medium)

  /** How long after a game over a new run is refused, in milliseconds. */
  const CooldownMs: int := 90000

  // ---------------------------------------------------------------------
  // Points for a solved puzzle.

  function Multiplier(d: Difficulty): real
  {
    match d
    case Easy => 0.75
    case Hard => 1.5
    case Medium => 1.0
  }

  function BasePoints(s: PlayerStats): int
  {
    100 + s.level * 10 + s.streak * 5
  }

  /** `Math.round(basePoints * multiplier)`. */
  function Points(s: PlayerStats): (p: int)
    ensures BasePoints(s) as real * Multiplier(s.difficulty) - 0.5 < p as real
    ensures p as real <= BasePoints(s) as real * Multiplier(s.difficulty) + 0.5
  {
    Clock.Round(BasePoints(s) as real * Multiplier(s.difficulty))
  }

  /** The points in integer arithmetic: three quarters rounded half up on
      easy, the base on medium, one and a half rounded half up on hard. */
  lemma PointsInIntegers(s: PlayerStats)
    ensures var b := BasePoints(s);
      Points(s) == match s.difficulty
                   case Easy => (3 * b + 2) / 4
                   case Medium => b
                   case Hard => (3 * b + 1) / 2
  {
    var b := BasePoints(s);
    match s.difficulty
    case Easy =>
      var n := 3 * b + 2;
      assert b as real * 0.75 + 0.5 == n as real / 4.0;
      assert n == 4 * (n / 4) + n % 4;
      assert (n / 4) as real <= n as real / 4.0 < (n / 4) as real + 1.0;
    case Medium =>
    case Hard =>
      var n := 3 * b + 1;
      assert b as real * 1.5 + 0.5 == n as real / 2.0;
      assert n == 2 * (n / 2) + n % 2;
      assert (n / 2) as real <= n as real / 2.0 < (n / 2) as real + 1.0;
  }

  /** From a level and streak that are not negative, a solved puzzle is
      worth at least 75 points (100 at least, times 0.75 at worst). */
  lemma PointsAtLeast75(s: PlayerStats)
    requires s.level >= 0 && s.streak >= 0
    ensures Points(s) >= 75
  {
    PointsInIntegers(s);
  }

  // ---------------------------------------------------------------------
  // The record updates of a puzzle's result.

  /** Solved: points, next level, longer streak, a bonus hint after every
      third level. */
  function Won(s: PlayerStats): PlayerStats
  {
    s.(score := s.score + Points(s),
       level := s.level + 1,
       streak := s.streak + 1,
       hintsRemaining := if s.level % 3 == 0 then s.hintsRemaining + 1 else s.hintsRemaining)
  }

  /** Failed with a life to spare. */
  function LostLife(s: PlayerStats): PlayerStats
  {
    s.(lives := s.lives - 1, streak := 0)
  }

  /** Failed on the last life. */
  function Died(s: PlayerStats): PlayerStats
  {
    s.(lives := 0)
  }

  /** Whether a result ends the run. */
  predicate EndsRun(s: PlayerStats, success: bool)
  {
    !success && s.lives <= 1
  }

  /** The stats after a result. */
  function ResultStats(s: PlayerStats, success: bool): PlayerStats
  {
    if success then Won(s) else if s.lives > 1 then LostLife(s) else Died(s)
  }

  /** The screen after a result: the continue screen, or game over. */
  function ResultScreen(s: PlayerStats, success: bool): GameState
  {
    if EndsRun(s, success) then GameOver else Success
  }

  /** What a result does: points, level and streak on success; a life and
      the streak on a spared failure; everything but the lives otherwise
      kept. The difficulty never changes, and lives never go below zero. */
  lemma ResultRules(s: PlayerStats, success: bool)
    requires s.level >= 0 && s.streak >= 0 && s.lives >= 0
    ensures var t := ResultStats(s, success);
      && t.difficulty == s.difficulty
      && t.lives >= 0
      && (success ==>
            && t.score >= s.score + 75
            && t.score == s.score + Points(s)
            && t.level == s.level + 1 && t.streak == s.streak + 1
            && t.lives == s.lives
            && (t.hintsRemaining == s.hintsRemaining + 1 <==> s.level % 3 == 0)
            && (t.hintsRemaining == s.hintsRemaining <==> s.level % 3 != 0)
            && ResultScreen(s, success) == Success)
      && (!success && s.lives > 1 ==>
            && t == s.(lives := s.lives - 1, streak := 0)
            && ResultScreen(s, success) == Success)
      && (!success && s.lives <= 1 ==>
            && t == s.(lives := 0)
            && ResultScreen(s, success) == GameOver)
  {
    if success {
      PointsAtLeast75(s);
    }
  }

  /** Only the last life lost leads to game over, and that is the only way a
      run's lives reach zero. */
  lemma GameOverExactlyWhenLivesRunOut(s: PlayerStats, success: bool)
    requires s.lives >= 1
    ensures ResultScreen(s, success) == GameOver <==> ResultStats(s, success).lives == 0
  {
  }

  /** `useHint`: one hint fewer, never below zero. */
  function HintUsed(s: PlayerStats): (t: PlayerStats)
    ensures t.hintsRemaining >= 0
    ensures s.hintsRemaining > 0 ==> t.hintsRemaining == s.hintsRemaining - 1
    ensures s.hintsRemaining <= 0 ==> t.hintsRemaining == 0
    ensures t == s.(hintsRemaining := t.hintsRemaining)
  {
    s.(hintsRemaining := if s.hintsRemaining - 1 < 0 then 0 else s.hintsRemaining - 1)
  }

  // ---------------------------------------------------------------------
  // The game-over cooldown.

  /** There is a game-over stamp and less than the cooldown has passed. A
      missing stamp and one that does not parse as a number both read None. */
  predicate Cooling(lastGameOver: Option<int>, now: int)
  {
    lastGameOver.Some? && now - lastGameOver.value < CooldownMs
  }

  /** The seconds left before a new run is allowed, rounded up. */
  function CooldownLeft(lastGameOver: Option<int>, now: int): int
  {
    if Cooling(lastGameOver, now) then Clock.CeilSeconds(CooldownMs - (now - lastGameOver.value)) else 0
  }

  /** The countdown is positive exactly while cooling, never negative, at
      most 90 seconds once the stamp is not in the future, and it is the
      remaining milliseconds rounded up to whole seconds. */
  lemma CooldownBounds(lastGameOver: Option<int>, now: int)
    ensures var left := CooldownLeft(lastGameOver, now);
      && left >= 0
      && (left > 0 <==> Cooling(lastGameOver, now))
      && (Cooling(lastGameOver, now) ==>
            var remaining := CooldownMs - (now - lastGameOver.value);
            (left - 1) * 1000 < remaining <= left * 1000)
      && (lastGameOver.Some? && now >= lastGameOver.value ==> left <= CooldownMs / 1000)
  {
  }

  // ---------------------------------------------------------------------
  // The application object.

  /** A saved run: the stats and the puzzle being played. */
  datatype SaveState = SaveState(stats: PlayerStats, puzzle: PuzzleData)

  class App {
    var gameState: GameState
    var stats: PlayerStats
    var currentPuzzle: Option<PuzzleData>
    var cooldownTimeLeft: int
    var savedGameExists: bool
    /** The difficulty chosen in the settings. */
    var settingsDifficulty: Difficulty
    // Persistent storage.
    var saved: Option<SaveState>
    var lastGameOver: Option<int>

    /** The saved-game flag mirrors the storage, the countdown is never
        negative, and the counters stay in range. */
    ghost predicate Valid()
      reads this
    {
      && savedGameExists == saved.Some?
      && cooldownTimeLeft >= 0
      && stats.hintsRemaining >= 0 && stats.lives >= 0
      && stats.level >= 0 && stats.streak >= 0
      && (gameState == GameOver ==> stats.lives == 0)
    }

    /** The application as mounted, with whatever the storage holds. */
    constructor (storedSave: Option<SaveState>, storedGameOver: Option<int>, difficulty: Difficulty)
      ensures gameState == Menu && stats == InitialStats && currentPuzzle == None
      ensures cooldownTimeLeft == 0 && settingsDifficulty == difficulty
      ensures saved == storedSave && lastGameOver == storedGameOver
      ensures savedGameExists == storedSave.Some?
      ensures Valid()
    {
      gameState := Menu;
      stats := InitialStats;
      currentPuzzle := None;
      cooldownTimeLeft := 0;
      settingsDifficulty := difficulty;
      saved := storedSave;
      lastGameOver := storedGameOver;
      savedGameExists := storedSave.Some?;
    }

    /** `checkCooldown`: publish the countdown and tell whether it runs. */
    method CheckCooldown(now: int) returns (cooling: bool)
      requires Valid()
      modifies this`cooldownTimeLeft
      ensures cooldownTimeLeft == CooldownLeft(lastGameOver, now)
      ensures cooling == Cooling(lastGameOver, now)
      ensures Valid()
    {
      CooldownBounds(lastGameOver, now);
      if lastGameOver.Some? {
        var diff := now - lastGameOver.value;
        if diff < CooldownMs {
          cooldownTimeLeft := Clock.CeilSeconds(CooldownMs - diff);
          return true;
        }
      }
      cooldownTimeLeft := 0;
      return false;
    }

    /** The cooldown effect, which runs again after every change of screen:
        its first `checkCooldown` publishes the countdown at `now`. */
    method GameStateChanged(now: int)
      requires Valid()
      modifies this`cooldownTimeLeft
      ensures cooldownTimeLeft == CooldownLeft(lastGameOver, now)
      ensures Valid()
    {
      var _ := CheckCooldown(now);
    }

    /** The one-second interval: leave the cooldown screen once it is over. */
    method CooldownTick(now: int)
      requires Valid()
      modifies this`cooldownTimeLeft, this`gameState
      ensures cooldownTimeLeft == CooldownLeft(lastGameOver, now)
      ensures gameState == if !Cooling(lastGameOver, now) && old(gameState) == Cooldown then Menu else old(gameState)
      ensures Valid()
    {
      var cooling := CheckCooldown(now);
      if !cooling && gameState == Cooldown {
        gameState := Menu;
      }
    }

    /** `startGame`: refused while cooling down; otherwise the save is
        cleared and a fresh run at the chosen difficulty starts loading. */
    method StartGame()
      requires Valid()
      modifies this`gameState, this`saved, this`savedGameExists, this`stats
      ensures old(cooldownTimeLeft) > 0 ==>
        gameState == Cooldown && saved == old(saved) && stats == old(stats)
      ensures old(cooldownTimeLeft) <= 0 ==>
        && gameState == Loading && saved == None
        && stats == InitialStats.(difficulty := settingsDifficulty)
      ensures Valid()
    {
      if cooldownTimeLeft > 0 {
        gameState := Cooldown;
        return;
      }
      saved := None;
      savedGameExists := false;
      stats := InitialStats.(difficulty := settingsDifficulty);
      gameState := Loading;
    }

    /** The generated puzzle arrives: it is shown. */
    method PuzzleArrived(puzzle: PuzzleData)
      requires Valid()
      modifies this`currentPuzzle, this`gameState
      ensures currentPuzzle == Some(puzzle) && gameState == Playing
      ensures Valid()
    {
      currentPuzzle := Some(puzzle);
      gameState := Playing;
    }

    /** `handleNextLevel`: load the puzzle for the current level. */
    method HandleNextLevel()
      requires Valid()
      modifies this`gameState
      ensures gameState == Loading && Valid()
    {
      gameState := Loading;
    }

    /** `handleExitGame`: back to the menu, saving the run only when a
        puzzle is being played with lives left. */
    method HandleExitGame()
      requires Valid()
      modifies this`saved, this`savedGameExists, this`gameState
      ensures var keep := old(gameState) == Playing && currentPuzzle.Some? && stats.lives > 0;
        && (keep ==> saved == Some(SaveState(stats, currentPuzzle.value)))
        && (!keep ==> saved == old(saved))
      ensures saved.Some? && saved != old(saved) ==> saved.value.stats.lives > 0
      ensures gameState == Menu && Valid()
    {
      if gameState == Playing && currentPuzzle.Some? && stats.lives > 0 {
        saved := Some(SaveState(stats, currentPuzzle.value));
        savedGameExists := true;
      }
      gameState := Menu;
    }

    /** `handleGameResult`: update the stats; on the last life lost, stamp
        the game-over time and clear the save. */
    method HandleGameResult(success: bool, now: int)
      requires Valid()
      modifies this`stats, this`gameState, this`lastGameOver, this`saved, this`savedGameExists
      ensures stats == ResultStats(old(stats), success)
      ensures gameState == ResultScreen(old(stats), success)
      ensures EndsRun(old(stats), success) ==> lastGameOver == Some(now) && saved == None
      ensures !EndsRun(old(stats), success) ==> lastGameOver == old(lastGameOver) && saved == old(saved)
      ensures Valid()
    {
      ResultRules(stats, success);
      if success {
        var multiplier := 1.0;
        if stats.difficulty == Easy { multiplier := 0.75; }
        if stats.difficulty == Hard { multiplier := 1.5; }
        var basePoints := 100 + stats.level * 10 + stats.streak * 5;
        var points := Clock.Round(basePoints as real * multiplier);
        stats := stats.(score := stats.score + points,
                        level := stats.level + 1,
                        streak := stats.streak + 1,
                        hintsRemaining := if stats.level % 3 == 0 then stats.hintsRemaining + 1 else stats.hintsRemaining);
        gameState := Success;
      } else if stats.lives > 1 {
        stats := stats.(lives := stats.lives - 1, streak := 0);
        gameState := Success;
      } else {
        stats := stats.(lives := 0);
        lastGameOver := Some(now);
        saved := None;
        savedGameExists := false;
        gameState := GameOver;
      }
    }

    /** `useHint`. */
    method UseHint()
      requires Valid()
      modifies this`stats
      ensures stats == HintUsed(old(stats)) && Valid()
    {
      stats := stats.(hintsRemaining := if stats.hintsRemaining - 1 < 0 then 0 else stats.hintsRemaining - 1);
    }
  }

  /** The gate works: after the last life is lost at `over`, and the effect
      has run for the game-over screen at `later`, a new run is refused until
      the cooldown has passed, and allowed from then on. */
  method CooldownGatesRestart(app: App, over: int, later: int)
    requires app.Valid() && app.stats.lives <= 1 && over <= later
    modifies app
    ensures later - over < CooldownMs ==> app.gameState == Cooldown
    ensures later - over >= CooldownMs ==> app.gameState == Loading
  {
    app.HandleGameResult(false, over);
    app.GameStateChanged(later);
    CooldownBounds(app.lastGameOver, later);
    app.StartGame();
  }
}
