/** The emoji-quest mini-game: guess the title behind a row of emojis with
    three lives and three hints. Losing the last life locks the game for two
    minutes, after which the lives come back; spending the last hint starts a
    five-minute clock that gives back exactly two hints.

    Time is an integer number of milliseconds passed in by the caller, and
    the remote answer checker is the `correct` argument of `VerdictArrived`. */
module EmojiQuestGame {
  import opened Types
  import Clock

  const HintRefillMs: int := 300000
  const DeathCooldownMs: int := 120000
  const MaxHints: int := 3
  const MaxLives: int := 3
  /** The number of hints the refill gives back. */
  const RefillHints: int := 2

  /** One generated puzzle. */
  datatype Quest = Quest(emojis: string, answer: string, hint: string, category: string)

  datatype Feedback = Correct | Wrong

  // ---------------------------------------------------------------------
  // Comparing guesses.

  /** The white-space characters `String.prototype.trim` removes, over ASCII. */
  predicate IsSpace(c: char)
  {
    c == ' ' || c == '\t' || c == '\n' || c == '\r' || c == '\U{000B}' || c == '\U{000C}'
  }

  /** `s` without its leading white space. */
  function TrimStart(s: string): string
    decreases |s|
  {
    if s != [] && IsSpace(s[0]) then TrimStart(s[1..]) else s
  }

  /** `s` without its trailing white space. */
  function TrimEnd(s: string): string
    decreases |s|
  {
    if s != [] && IsSpace(s[|s| - 1]) then TrimEnd(s[..|s| - 1]) else s
  }

  /** Trimming the front keeps a suffix that does not start with white
      space, and drops only white space. */
  lemma {:induction false} TrimStartFacts(s: string)
    ensures var r := TrimStart(s);
      && |r| <= |s| && r == s[|s| - |r|..]
      && (r == [] || !IsSpace(r[0]))
      && (forall i :: 0 <= i < |s| - |r| ==> IsSpace(s[i]))
    decreases |s|
  {
    if s != [] && IsSpace(s[0]) {
      TrimStartFacts(s[1..]);
      var r := TrimStart(s);
      forall i | 1 <= i < |s| - |r| ensures IsSpace(s[i]) {
        assert s[i] == s[1..][i - 1];
      }
    }
  }

  /** Trimming the back keeps a prefix that does not end with white space,
      and drops only white space. */
  lemma {:induction false} TrimEndFacts(s: string)
    ensures var r := TrimEnd(s);
      && |r| <= |s| && r == s[..|r|]
      && (r == [] || !IsSpace(r[|r| - 1]))
      && (forall i :: |r| <= i < |s| ==> IsSpace(s[i]))
    decreases |s|
  {
    if s != [] && IsSpace(s[|s| - 1]) {
      TrimEndFacts(s[..|s| - 1]);
    }
  }

  /** `str.trim()`: the text with the white space at both ends removed. */
  function Trim(s: string): string
  {
    TrimEnd(TrimStart(s))
  }

  /** What trimming keeps is one contiguous piece of the text, starting
      where the leading white space ends, with no white space at either end;
      everything it drops is white space. */
  lemma TrimIsInnerPiece(s: string)
    ensures var i, r := |s| - |TrimStart(s)|, Trim(s);
      && 0 <= i && i + |r| <= |s| && r == s[i..i + |r|]
      && (forall k :: 0 <= k < i ==> IsSpace(s[k]))
      && (forall k :: i + |r| <= k < |s| ==> IsSpace(s[k]))
      && (r == [] || (!IsSpace(r[0]) && !IsSpace(r[|r| - 1])))
  {
    var t := TrimStart(s);
    var r := TrimEnd(t);
    var i := |s| - |t|;
    TrimStartFacts(s);
    TrimEndFacts(t);
    assert t == s[i..];
    assert r == t[..|r|];
    assert r == s[i..i + |r|];
    forall k | i + |r| <= k < |s|
      ensures IsSpace(s[k])
    {
      assert s[k] == t[k - i];
    }
    if r != [] {
      assert r[0] == t[0];
    }
  }

  /** Trimming twice is trimming once. */
  lemma {:induction false} TrimIdempotent(s: string)
    ensures Trim(Trim(s)) == Trim(s)
  {
    var r := Trim(s);
    TrimIsInnerPiece(s);
    TrimStartFacts(r);
    TrimEndFacts(r);
    assert TrimStart(r) == r;
    assert TrimEnd(r) == r;
  }

  function LowerChar(c: char): char
  {
    if 'A' <= c <= 'Z' then (c as int + 32) as char else c
  }

  /** `str.toLowerCase()`, over ASCII letters. */
  function Lower(s: string): string
  {
    seq(|s|, i requires 0 <= i < |s| => LowerChar(s[i]))
  }

  /** The exact-match key: lower-cased, then trimmed. */
  function Normalize(s: string): string
  {
    Trim(Lower(s))
  }

  lemma LowerConcat(a: string, b: string)
    ensures Lower(a + b) == Lower(a) + Lower(b)
  {
    assert forall i :: 0 <= i < |a + b| ==> Lower(a + b)[i] == (Lower(a) + Lower(b))[i];
  }

  lemma LowerSpaces(pad: string)
    requires forall i :: 0 <= i < |pad| ==> IsSpace(pad[i])
    ensures Lower(pad) == pad
  {
  }

  lemma LowerLower(s: string)
    ensures Lower(Lower(s)) == Lower(s)
  {
  }

  /** The upper/lower distinction of ASCII letters and surrounding white
      space make no difference to the exact match. */
  lemma NormalizeIgnoresCaseAndPadding(s: string, pad1: string, pad2: string)
    requires forall i :: 0 <= i < |pad1| ==> IsSpace(pad1[i])
    requires forall i :: 0 <= i < |pad2| ==> IsSpace(pad2[i])
    ensures Normalize(pad1 + s + pad2) == Normalize(s)
    ensures Normalize(Lower(s)) == Normalize(s)
  {
    LowerConcat(pad1 + s, pad2);
    LowerConcat(pad1, s);
    LowerSpaces(pad1);
    LowerSpaces(pad2);
    TrimPadding(Lower(s), pad1, pad2);
    LowerLower(s);
  }

  lemma {:induction false} TrimStartPad(s: string, pad: string)
    requires forall i :: 0 <= i < |pad| ==> IsSpace(pad[i])
    ensures TrimStart(pad + s) == TrimStart(s)
    decreases |pad|
  {
    if pad != [] {
      assert (pad + s)[1..] == pad[1..] + s;
      TrimStartPad(s, pad[1..]);
    } else {
      assert pad + s == s;
    }
  }

  lemma {:induction false} TrimEndPad(s: string, pad: string)
    requires forall i :: 0 <= i < |pad| ==> IsSpace(pad[i])
    ensures TrimEnd(s + pad) == TrimEnd(s)
    decreases |pad|
  {
    if pad != [] {
      var p := pad[..|pad| - 1];
      assert (s + pad)[..|s + pad| - 1] == s + p;
      assert (s + pad)[|s + pad| - 1] == pad[|pad| - 1];
      TrimEndPad(s, p);
    } else {
      assert s + pad == s;
    }
  }

  lemma {:induction false} TrimStartSuffix(s: string, pad: string)
    requires forall i :: 0 <= i < |pad| ==> IsSpace(pad[i])
    ensures TrimEnd(TrimStart(s + pad)) == TrimEnd(TrimStart(s))
    decreases |s|
  {
    if s == [] {
      assert s + pad == pad;
      TrimEndPad([], pad);
      TrimStartPad([], pad);
      assert pad + [] == pad;
      assert TrimStart(pad) == [];
    } else if IsSpace(s[0]) {
      assert (s + pad)[1..] == s[1..] + pad;
      TrimStartSuffix(s[1..], pad);
    } else {
      assert (s + pad)[0] == s[0];
      TrimEndPad(s, pad);
    }
  }

  lemma TrimPadding(s: string, pad1: string, pad2: string)
    requires forall i :: 0 <= i < |pad1| ==> IsSpace(pad1[i])
    requires forall i :: 0 <= i < |pad2| ==> IsSpace(pad2[i])
    ensures Trim(pad1 + s + pad2) == Trim(s)
  {
    assert pad1 + s + pad2 == pad1 + (s + pad2);
    TrimStartPad(s + pad2, pad1);
    TrimStartSuffix(s, pad2);
  }

  /** A guess that is empty after trimming. */
  predicate Blank(s: string)
  {
    Trim(s) == []
  }

  /** A guess is blank exactly when it is all white space. */
  lemma BlankIffAllSpace(s: string)
    ensures Blank(s) <==> forall i :: 0 <= i < |s| ==> IsSpace(s[i])
  {
    var t := TrimStart(s);
    TrimStartFacts(s);
    TrimEndFacts(t);
    if Blank(s) {
      assert t == [];
    }
  }

  // ---------------------------------------------------------------------
  // The timers.

  /** What is left of a `period` started at `start`, at time `now`. */
  function Remaining(period: int, start: int, now: int): int
  {
    period - (now - start)
  }

  /** The countdown shown for a running timer: whole seconds, rounded up,
      at most the period's seconds once the start is not in the future. */
  lemma CountdownBounds(period: int, start: int, now: int)
    requires period > 0 && Remaining(period, start, now) > 0
    ensures var left := Clock.CeilSeconds(Remaining(period, start, now));
      && left >= 1
      && (left - 1) * 1000 < Remaining(period, start, now) <= left * 1000
      && (now >= start && period % 1000 == 0 ==> left <= period / 1000)
  {
  }

  // ---------------------------------------------------------------------
  // The screen.

  /** The screen's state hooks. `deathTime` is when the last life was lost
      (0 when not locked); `hintEmptyTime` is when the last hint was spent
      (0 when no refill is running); the two timers are the whole seconds
      shown for them. */
  datatype Screen = Screen(
    data: Option<Quest>, loading: bool, userGuess: string, feedback: Option<Feedback>,
    showHint: bool, checking: bool, score: int, lives: int, hints: int,
    deathTime: int, hintEmptyTime: int, deathTimer: int, hintTimer: int)

  /** Hints stay between 0 and 3 and the refill clock runs only with none
      left; lives stay at most 3 and the lock is on only with none left; no
      check runs during the lock. */
  predicate Consistent(s: Screen)
  {
    && 0 <= s.hints <= MaxHints
    && (s.hintEmptyTime > 0 ==> s.hints == 0)
    && s.lives <= MaxLives
    && (s.deathTime > 0 ==> s.lives <= 0)
    && s.score >= 0
    && s.deathTimer >= 0 && s.hintTimer >= 0
    && s.deathTime >= 0 && s.hintEmptyTime >= 0
    && (s.checking ==> s.deathTime == 0)
  }

  /** A run that can still be played, or is locked waiting for new lives. */
  predicate Alive(s: Screen)
  {
    s.lives >= 1 || s.deathTime > 0
  }

  /** The state `loadLevel` leaves before the quest arrives. */
  function Reloading(s: Screen): Screen
  {
    s.(loading := true, feedback := None, userGuess := [], showHint := false)
  }

  class EmojiQuestScreen {
    var st: Screen

    ghost predicate Valid()
      reads this
    {
      Consistent(st)
    }

    /** The screen as mounted: full lives and hints, loading the first quest. */
    constructor ()
      ensures st == Screen(None, true, [], None, false, false, 0, MaxLives, MaxHints, 0, 0, 0, 0)
      ensures Valid() && Alive(st)
    {
      st := Screen(None, true, [], None, false, false, 0, MaxLives, MaxHints, 0, 0, 0, 0);
    }

    /** `loadLevel`: nothing during the lock; otherwise clear the feedback,
        the guess and the hint, and start loading a quest. */
    method LoadLevel()
      requires Valid()
      modifies this
      ensures st == if old(st.deathTime) > 0 then old(st) else Reloading(old(st))
      ensures Valid()
    {
      if st.deathTime > 0 {
        return;
      }
      st := st.(loading := true, feedback := None, userGuess := [], showHint := false);
    }

    /** The generated quest arrives (the generator answers with a built-in
        quest when generation fails). */
    method QuestArrived(q: Quest)
      requires Valid()
      modifies this
      ensures st == old(st).(data := Some(q), loading := false)
      ensures Valid()
    {
      st := st.(data := Some(q), loading := false);
    }

    /** Typing into the guess box clears the feedback. */
    method SetGuess(text: string)
      requires Valid()
      modifies this
      ensures st == old(st).(userGuess := text, feedback := None)
      ensures Valid()
    {
      st := st.(userGuess := text, feedback := None);
    }

    /** The one-second interval at time `now`. The lock ends after two
        minutes with full lives and a new quest; the hint refill ends after
        five minutes with exactly two hints; running timers show their
        remaining whole seconds, rounded up. */
    method Tick(now: int)
      requires Valid()
      modifies this
      ensures var s0, r := old(st), Remaining(DeathCooldownMs, old(st.deathTime), now);
        && (s0.deathTime > 0 && r <= 0 ==>
              st.deathTime == 0 && st.lives == MaxLives && st.deathTimer == 0
              && st.loading && st.feedback == None && st.userGuess == [] && !st.showHint)
        && (s0.deathTime > 0 && r > 0 ==>
              st.deathTime == s0.deathTime && st.lives == s0.lives && st.deathTimer == Clock.CeilSeconds(r))
        && (s0.deathTime <= 0 ==>
              st.deathTime == s0.deathTime && st.lives == s0.lives && st.deathTimer == s0.deathTimer)
        && (!(s0.deathTime > 0 && r <= 0) ==>
              st.loading == s0.loading && st.feedback == s0.feedback
              && st.userGuess == s0.userGuess && st.showHint == s0.showHint)
      ensures var s0, r := old(st), Remaining(HintRefillMs, old(st.hintEmptyTime), now);
        && (s0.hintEmptyTime > 0 && r <= 0 ==> st.hints == RefillHints && st.hintEmptyTime == 0 && st.hintTimer == 0)
        && (s0.hintEmptyTime > 0 && r > 0 ==>
              st.hints == s0.hints && st.hintEmptyTime == s0.hintEmptyTime && st.hintTimer == Clock.CeilSeconds(r))
        && (s0.hintEmptyTime <= 0 ==>
              st.hints == s0.hints && st.hintEmptyTime == s0.hintEmptyTime && st.hintTimer == s0.hintTimer)
      ensures st.data == old(st.data) && st.checking == old(st.checking) && st.score == old(st.score)
      ensures Valid()
      ensures old(Alive(st)) ==> Alive(st)
    {
      if st.deathTime > 0 {
        var remaining := DeathCooldownMs - (now - st.deathTime);
        if remaining <= 0 {
          st := st.(deathTime := 0, lives := MaxLives, deathTimer := 0);
          LoadLevel();
        } else {
          st := st.(deathTimer := Clock.CeilSeconds(remaining));
        }
      }
      if st.hintEmptyTime > 0 {
        var remaining := HintRefillMs - (now - st.hintEmptyTime);
        if remaining <= 0 {
          st := st.(hints := RefillHints, hintEmptyTime := 0, hintTimer := 0);
        } else {
          st := st.(hintTimer := Clock.CeilSeconds(remaining));
        }
      }
    }

    /** `handleSubmit` up to the remote check. Ignored for a blank guess,
        while a check is running or during the lock. With no quest loaded the
        answer cannot be read and the attempt ends with nothing changed. A
        trimmed, case-insensitive exact match is correct at once; any other
        guess waits for the checker's verdict with `checking` set. */
    method Submit(now: int)
      requires Valid() && now > 0
      modifies this
      ensures var s0 := old(st);
        st == if Blank(s0.userGuess) || s0.checking || s0.deathTime > 0 || s0.data.None? then s0
          else if Normalize(s0.userGuess) == Normalize(s0.data.value.answer) then
            s0.(feedback := Some(Correct), score := s0.score + 1)
          else s0.(checking := true)
      ensures Valid()
      ensures old(Alive(st)) ==> Alive(st)
    {
      if Blank(st.userGuess) || st.checking || st.deathTime > 0 {
        return;
      }
      st := st.(checking := true);
      if st.data.None? {
        st := st.(checking := false);
        return;
      }
      var isExact := Normalize(st.userGuess) == Normalize(st.data.value.answer);
      if isExact {
        VerdictArrived(true, now);
      }
    }

    /** The verdict on the guess being checked, then the check ends: a right
        guess scores a point; a wrong one costs a life and, on the last,
        locks the game from `now`. */
    method VerdictArrived(correct: bool, now: int)
      requires Valid() && st.checking && now > 0
      modifies this
      ensures var s0 := old(st);
        st == if correct then s0.(feedback := Some(Correct), score := s0.score + 1, checking := false)
          else s0.(feedback := Some(Wrong), lives := s0.lives - 1, checking := false,
                   deathTime := if s0.lives - 1 <= 0 then now else s0.deathTime)
      ensures Valid()
      ensures old(Alive(st)) ==> Alive(st)
    {
      if correct {
        st := st.(feedback := Some(Correct), score := st.score + 1);
      } else {
        var newLives := st.lives - 1;
        st := st.(feedback := Some(Wrong), lives := newLives);
        if newLives <= 0 {
          st := st.(deathTime := now);
        }
      }
      st := st.(checking := false);
    }

    /** The remote check failed: the check ends with nothing else changed. */
    method CheckFailed()
      requires Valid() && st.checking
      modifies this
      ensures st == old(st).(checking := false)
      ensures Valid()
    {
      st := st.(checking := false);
    }

    /** `useHint`: only with a hint left and none shown. The last hint starts
        the refill clock at `now`. */
    method UseHint(now: int)
      requires Valid() && now > 0
      modifies this
      ensures var s0 := old(st);
        st == if s0.hints > 0 && !s0.showHint then
            s0.(hints := s0.hints - 1, showHint := true,
                hintEmptyTime := if s0.hints == 1 then now else s0.hintEmptyTime)
          else s0
      ensures Valid()
    {
      if st.hints > 0 && !st.showHint {
        var newHints := st.hints - 1;
        st := st.(hints := newHints, showHint := true);
        if newHints == 0 {
          st := st.(hintEmptyTime := now);
        }
      }
    }
  }
}
