/** The Mystery-Doors puzzle view: the player picks one answer, which is
    then revealed; continuing reports whether it was right; one hint can be
    shown per puzzle while hints remain. */
module PuzzleScreen {
  import opened Types
  import MysteryDoors

  /** The notification sounds the view plays. */
  datatype Sound = NoSound | CorrectSound | WrongSound | RetrySound | ClickSound

  /** `isCorrect`: the selection is the puzzle's correct option. */
  predicate IsCorrect(selected: Option<int>, puzzle: PuzzleData)
  {
    selected == Some(puzzle.correctIndex)
  }

  /** `willDie`: a wrong answer with at most one life left. */
  predicate WillDie(selected: Option<int>, puzzle: PuzzleData, stats: PlayerStats)
  {
    !IsCorrect(selected, puzzle) && stats.lives <= 1
  }

  /** The view's warning agrees with the rules: a reported answer will die
      exactly when the result ends the run, and then the game-over screen
      follows. */
  lemma WillDieMeansGameOver(selected: Option<int>, puzzle: PuzzleData, stats: PlayerStats)
    ensures WillDie(selected, puzzle, stats) <==> MysteryDoors.EndsRun(stats, IsCorrect(selected, puzzle))
    ensures WillDie(selected, puzzle, stats)
      <==> MysteryDoors.ResultScreen(stats, IsCorrect(selected, puzzle)) == GameOver
  {
  }

  class PuzzleView {
    const puzzle: PuzzleData
    var selectedIndex: Option<int>
    var isRevealed: bool
    var hintVisible: bool

    /** The answer is revealed exactly when one has been selected. */
    ghost predicate Valid()
      reads this
    {
      isRevealed <==> selectedIndex.Some?
    }

    /** A fresh view of `p`: nothing selected, nothing revealed, no hint. */
    constructor (p: PuzzleData)
      ensures puzzle == p && selectedIndex == None && !isRevealed && !hintVisible
      ensures Valid()
    {
      puzzle := p;
      selectedIndex := None;
      isRevealed := false;
      hintVisible := false;
    }

    /** `handleSelect`: the first selection wins and is revealed, with the
        sound for a right or wrong pick; later ones are ignored. */
    method HandleSelect(index: int) returns (sound: Sound)
      requires Valid()
      modifies this`selectedIndex, this`isRevealed
      ensures old(isRevealed) ==>
        selectedIndex == old(selectedIndex) && isRevealed && sound == NoSound
      ensures !old(isRevealed) ==>
        selectedIndex == Some(index) && isRevealed
        && sound == (if index == puzzle.correctIndex then CorrectSound else WrongSound)
      ensures Valid()
    {
      if isRevealed {
        return NoSound;
      }
      selectedIndex := Some(index);
      isRevealed := true;
      sound := if index == puzzle.correctIndex then CorrectSound else WrongSound;
    }

    /** `handleContinue` with the current `stats`: nothing without a
        selection; otherwise it reports whether the answer was right, with
        the retry sound exactly for a wrong answer that is not fatal. */
    method HandleContinue(stats: PlayerStats) returns (report: Option<bool>, sound: Sound)
      ensures selectedIndex.None? ==> report == None && sound == NoSound
      ensures selectedIndex.Some? ==> report == Some(selectedIndex.value == puzzle.correctIndex)
      ensures sound == RetrySound <==> report == Some(false) && stats.lives > 1
      ensures report.Some? && sound != RetrySound ==> sound == ClickSound
    {
      if selectedIndex.None? {
        return None, NoSound;
      }
      var correct := IsCorrect(selectedIndex, puzzle);
      var willDie := WillDie(selectedIndex, puzzle, stats);
      sound := if !correct && !willDie then RetrySound else ClickSound;
      report := Some(correct);
    }

    /** `handleHint`: shows the hint and spends one, only while hints remain
        and the hint is not already shown, so at most once per view. */
    method HandleHint(stats: PlayerStats) returns (used: bool)
      modifies this`hintVisible
      ensures used <==> stats.hintsRemaining > 0 && !old(hintVisible)
      ensures hintVisible == (old(hintVisible) || used)
    {
      used := stats.hintsRemaining > 0 && !hintVisible;
      if used {
        hintVisible := true;
      }
    }
  }

  /** Whatever the hint counter says, a view spends at most one hint: a
      second request after a used one is refused. */
  method HintAtMostOnce(v: PuzzleView, s1: PlayerStats, s2: PlayerStats) returns (first: bool, second: bool)
    modifies v
    ensures !(first && second)
  {
    first := v.HandleHint(s1);
    second := v.HandleHint(s2);
  }
}
