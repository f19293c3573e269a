/** The AI-trivia game: one answer per question, ten points for a right one,
    the score kept across questions. */
module Trivia {
  import opened Types

  /** Points for a right answer. */
  const PointsPerAnswer: int := 10

  datatype Sound = NoSound | CorrectSound | WrongSound

  class TriviaScreen {
    var data: Option<TriviaData>
    var loading: bool
    var score: int
    var answered: bool
    var selectedIndex: Option<int>
    /** The number of questions answered right so far. */
    ghost var rightAnswers: nat

    /** A question is answered exactly when an option is selected, and the
        score is ten points per right answer. */
    ghost predicate Valid()
      reads this
    {
      && (answered <==> selectedIndex.Some?)
      && score == PointsPerAnswer * rightAnswers
    }

    /** The screen as mounted: no question yet, loading the first. */
    constructor ()
      ensures data == None && loading && score == 0 && !answered && selectedIndex == None
      ensures Valid()
    {
      data := None;
      loading := true;
      score := 0;
      answered := false;
      selectedIndex := None;
      rightAnswers := 0;
    }

    /** `loadQuestion`: starts loading and clears the answer; the score and
        the shown question stay until the new one arrives. */
    method LoadQuestion()
      requires Valid()
      modifies this`loading, this`answered, this`selectedIndex
      ensures loading && !answered && selectedIndex == None
      ensures Valid()
    {
      loading := true;
      answered := false;
      selectedIndex := None;
    }

    /** The generated question arrives. */
    method QuestionArrived(q: TriviaData)
      requires Valid()
      modifies this`data, this`loading
      ensures data == Some(q) && !loading
      ensures Valid()
    {
      data := Some(q);
      loading := false;
    }

    /** Generation failed: loading ends and the old question, if any, stays. */
    method LoadFailed()
      requires Valid()
      modifies this`loading
      ensures !loading
      ensures Valid()
    {
      loading := false;
    }

    /** `handleSelect`: ignored once answered or with no question; otherwise
        the pick is recorded, and only a right one scores ten points. */
    method HandleSelect(index: int) returns (sound: Sound)
      requires Valid()
      modifies this`answered, this`selectedIndex, this`score, this`rightAnswers
      ensures old(answered) || data.None? ==>
        answered == old(answered) && selectedIndex == old(selectedIndex) && score == old(score)
        && sound == NoSound
      ensures !old(answered) && data.Some? ==>
        && answered && selectedIndex == Some(index)
        && (index == data.value.correctIndex ==> score == old(score) + PointsPerAnswer && sound == CorrectSound)
        && (index != data.value.correctIndex ==> score == old(score) && sound == WrongSound)
      ensures Valid()
      ensures score % PointsPerAnswer == 0 && score >= old(score)
    {
      if answered || data.None? {
        return NoSound;
      }
      selectedIndex := Some(index);
      answered := true;
      if index == data.value.correctIndex {
        score := score + PointsPerAnswer;
        rightAnswers := rightAnswers + 1;
        sound := CorrectSound;
      } else {
        sound := WrongSound;
      }
    }
  }

  /** Picking twice on one question scores at most once: the second pick is
      ignored whatever it is. */
  method OneScorePerQuestion(t: TriviaScreen, first: int, second: int) returns (gained: int)
    requires t.Valid() && !t.answered
    modifies t
    ensures gained == t.score - old(t.score)
    ensures gained == 0 || gained == PointsPerAnswer
  {
    var before := t.score;
    var _ := t.HandleSelect(first);
    var _ := t.HandleSelect(second);
    gained := t.score - before;
  }
}
