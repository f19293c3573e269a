/** The local top-50 leaderboard: the stored list is read back sorted by
    descending score and cut to 50 entries, and a new score is added by
    appending it, sorting again and cutting again.

    The sort is the stable one the language guarantees for
    `Array.prototype.sort` (section 22.1.3.27 of ECMAScript 2019), written
    here as an insertion sort that places each entry after every earlier
    entry of at least its score. */
module LeaderboardService {
  import opened Types

  const MaxEntries: nat := 50

  /** What the storage key holds: nothing (or the empty string), text that
      does not read back as a list of entries, or a list of entries. */
  datatype Stored = Absent | Unreadable | Entries(entries: seq<LeaderboardEntry>)

  /** Non-increasing by score, stated for every pair. */
  predicate SortedDesc(s: seq<LeaderboardEntry>)
  {
    forall i, j :: 0 <= i < j < |s| ==> s[i].score >= s[j].score
  }

  /** The entries of score `v`, in their order. */
  function WithScore(s: seq<LeaderboardEntry>, v: int): seq<LeaderboardEntry>
  {
    if s == [] then []
    else (if s[0].score == v then [s[0]] else []) + WithScore(s[1..], v)
  }

  lemma {:induction false} WithScoreAppend(a: seq<LeaderboardEntry>, b: seq<LeaderboardEntry>, v: int)
    ensures WithScore(a + b, v) == WithScore(a, v) + WithScore(b, v)
    decreases |a|
  {
    if a == [] {
      assert a + b == b;
    } else {
      var head := if a[0].score == v then [a[0]] else [];
      assert (a + b)[0] == a[0];
      assert (a + b)[1..] == a[1..] + b;
      WithScoreAppend(a[1..], b, v);
      assert WithScore(a + b, v) == head + WithScore(a[1..] + b, v);
      assert WithScore(a, v) == head + WithScore(a[1..], v);
    }
  }

  lemma {:induction false} WithScoreNone(s: seq<LeaderboardEntry>, v: int)
    requires forall i :: 0 <= i < |s| ==> s[i].score != v
    ensures WithScore(s, v) == []
    decreases |s|
  {
    if s != [] {
      assert s[0].score != v;
      WithScoreNone(s[1..], v);
    }
  }

  lemma SortedTail(s: seq<LeaderboardEntry>)
    requires SortedDesc(s) && s != []
    ensures SortedDesc(s[1..])
    ensures forall i :: 0 <= i < |s[1..]| ==> s[1..][i].score <= s[0].score
  {
    forall i, j | 0 <= i < j < |s[1..]| ensures s[1..][i].score >= s[1..][j].score {
      assert s[1..][i] == s[i + 1] && s[1..][j] == s[j + 1];
    }
    forall i | 0 <= i < |s[1..]| ensures s[1..][i].score <= s[0].score {
      assert s[1..][i] == s[i + 1];
    }
  }

  // ---------------------------------------------------------------------
  // The stable sort.

  /** `e` inserted into a sorted list after every entry of at least its
      score: where a stable descending sort puts the last of its inputs. */
  function InsertAfterTies(s: seq<LeaderboardEntry>, e: LeaderboardEntry): seq<LeaderboardEntry>
  {
    if s == [] then [e]
    else if s[0].score >= e.score then [s[0]] + InsertAfterTies(s[1..], e)
    else [e] + s
  }

  /** Inserting adds exactly `e`. */
  lemma {:induction false} InsertAfterTiesCount(s: seq<LeaderboardEntry>, e: LeaderboardEntry)
    ensures multiset(InsertAfterTies(s, e)) == multiset(s) + multiset{e}
    ensures |InsertAfterTies(s, e)| == |s| + 1
    decreases |s|
  {
    if s != [] && s[0].score >= e.score {
      InsertAfterTiesCount(s[1..], e);
      assert s == [s[0]] + s[1..];
    }
  }

  /** Inserting keeps the list sorted, and the result starts with the old
      head when that scores at least as much as `e`, else with `e`. */
  lemma {:induction false} InsertAfterTiesSorted(s: seq<LeaderboardEntry>, e: LeaderboardEntry)
    requires SortedDesc(s)
    ensures SortedDesc(InsertAfterTies(s, e))
    ensures InsertAfterTies(s, e) != []
    ensures InsertAfterTies(s, e)[0] == if s != [] && s[0].score >= e.score then s[0] else e
    decreases |s|
  {
    var t := InsertAfterTies(s, e);
    if s == [] {
      assert t == [e];
    } else if s[0].score >= e.score {
      SortedTail(s);
      InsertAfterTiesSorted(s[1..], e);
      var r := InsertAfterTies(s[1..], e);
      assert t == [s[0]] + r;
      assert r[0].score <= s[0].score;
      forall i, j | 0 <= i < j < |t| ensures t[i].score >= t[j].score {
        assert t[j] == r[j - 1];
        if i == 0 {
          assert r[0].score >= r[j - 1].score || j - 1 == 0;
        } else {
          assert t[i] == r[i - 1];
        }
      }
    } else {
      assert t == [e] + s;
      forall i, j | 0 <= i < j < |t| ensures t[i].score >= t[j].score {
        assert t[j] == s[j - 1];
        if i == 0 {
          assert s[0].score >= s[j - 1].score || j - 1 == 0;
        } else {
          assert t[i] == s[i - 1];
        }
      }
    }
  }

  /** The newcomer goes after every entry of its own score: among the
      entries of any one score it comes last. */
  lemma {:induction false} InsertAfterTiesStable(s: seq<LeaderboardEntry>, e: LeaderboardEntry, v: int)
    requires SortedDesc(s)
    ensures WithScore(InsertAfterTies(s, e), v) == WithScore(s, v) + (if e.score == v then [e] else [])
    decreases |s|
  {
    if s == [] {
      assert InsertAfterTies(s, e) == [e];
    } else if s[0].score >= e.score {
      SortedTail(s);
      InsertAfterTiesStable(s[1..], e, v);
      assert s == [s[0]] + s[1..];
      WithScoreAppend([s[0]], InsertAfterTies(s[1..], e), v);
      WithScoreAppend([s[0]], s[1..], v);
    } else {
      forall i | 0 <= i < |s| ensures s[i].score != e.score {
        assert s[0].score >= s[i].score || i == 0;
      }
      if e.score == v {
        WithScoreNone(s, v);
      }
      WithScoreAppend([e], s, v);
    }
  }

  /** `sort((a, b) => b.score - a.score)`: each entry, from the first to the
      last, is inserted after the earlier ones of at least its score. */
  function SortByScore(s: seq<LeaderboardEntry>): seq<LeaderboardEntry>
    decreases |s|
  {
    if s == [] then [] else InsertAfterTies(SortByScore(s[..|s| - 1]), s[|s| - 1])
  }

  /** The sort keeps every entry exactly as often as it occurs. */
  lemma {:induction false} SortByScoreCount(s: seq<LeaderboardEntry>)
    ensures multiset(SortByScore(s)) == multiset(s) && |SortByScore(s)| == |s|
    decreases |s|
  {
    if s != [] {
      var init, last := s[..|s| - 1], s[|s| - 1];
      var m := SortByScore(init);
      SortByScoreCount(init);
      InsertAfterTiesCount(m, last);
      assert multiset(s) == multiset(init) + multiset{last} by {
        assert s == init + [last];
      }
    }
  }

  /** The sort orders by non-increasing score and keeps every entry
      exactly as often as it occurs. */
  lemma {:induction false} SortByScoreSorts(s: seq<LeaderboardEntry>)
    ensures SortedDesc(SortByScore(s))
    ensures multiset(SortByScore(s)) == multiset(s) && |SortByScore(s)| == |s|
    decreases |s|
  {
    SortByScoreCount(s);
    if s != [] {
      var init := s[..|s| - 1];
      SortByScoreSorts(init);
      InsertAfterTiesSorted(SortByScore(init), s[|s| - 1]);
    }
  }

  /** The sort is stable: the entries of any one score come out in the
      order they went in. */
  lemma {:induction false} SortByScoreStable(s: seq<LeaderboardEntry>, v: int)
    ensures WithScore(SortByScore(s), v) == WithScore(s, v)
    decreases |s|
  {
    if s != [] {
      var init, last := s[..|s| - 1], s[|s| - 1];
      var tail := if last.score == v then [last] else [];
      var m := SortByScore(init);
      assert SortByScore(s) == InsertAfterTies(m, last);
      SortByScoreStable(init, v);
      assert SortedDesc(m) by {
        SortByScoreSorts(init);
      }
      InsertAfterTiesStable(m, last, v);
      assert WithScore(s, v) == WithScore(init, v) + tail by {
        assert s == init + [last];
        WithScoreAppend(init, [last], v);
        assert [last][1..] == [];
        assert WithScore([last], v) == tail;
      }
    }
  }

  /** Sorting a sorted list changes nothing. */
  lemma {:induction false} SortSorted(s: seq<LeaderboardEntry>)
    requires SortedDesc(s)
    ensures SortByScore(s) == s
    decreases |s|
  {
    if s != [] {
      var init, last := s[..|s| - 1], s[|s| - 1];
      assert SortedDesc(init) by {
        forall i, j | 0 <= i < j < |init| ensures init[i].score >= init[j].score {
          assert init[i] == s[i] && init[j] == s[j];
        }
      }
      SortSorted(init);
      InsertAtEnd(init, last);
      assert init + [last] == s;
    }
  }

  /** An entry of at most every score of a sorted list goes at its end. */
  lemma {:induction false} InsertAtEnd(s: seq<LeaderboardEntry>, e: LeaderboardEntry)
    requires forall i :: 0 <= i < |s| ==> s[i].score >= e.score
    ensures InsertAfterTies(s, e) == s + [e]
    decreases |s|
  {
    if s != [] {
      assert s[0].score >= e.score;
      assert forall i :: 0 <= i < |s[1..]| ==> s[1..][i] == s[i + 1];
      InsertAtEnd(s[1..], e);
      assert s == [s[0]] + s[1..];
    }
  }

  // ---------------------------------------------------------------------
  // Reading and saving.

  /** `slice(0, 50)`. */
  function Top(s: seq<LeaderboardEntry>): (r: seq<LeaderboardEntry>)
    ensures |r| == if |s| < MaxEntries then |s| else MaxEntries
    ensures r == s[..|r|]
  {
    if |s| <= MaxEntries then s else s[..MaxEntries]
  }

  /** `getLeaderboard`: nothing stored and unreadable storage both give the
      empty list; otherwise the best 50 by score. */
  function Board(stored: Stored): (r: seq<LeaderboardEntry>)
    ensures SortedDesc(r) && |r| <= MaxEntries
    ensures stored.Entries? ==> multiset(r) <= multiset(stored.entries)
  {
    match stored
    case Absent => []
    case Unreadable => []
    case Entries(entries) =>
      SortByScoreSorts(entries);
      var t := SortByScore(entries);
      assert multiset(Top(t)) <= multiset(t) by {
        assert t == Top(t) + t[|Top(t)|..];
      }
      Top(t)
  }

  /** The list `saveScore` writes for the current board and a new entry. */
  function Saved(board: seq<LeaderboardEntry>, e: LeaderboardEntry): seq<LeaderboardEntry>
  {
    Top(SortByScore(board + [e]))
  }

  /** Saving into a sorted board inserts the newcomer after every entry of
      at least its score, so it ranks behind the entries it ties with. */
  lemma SavedInsertsAfterTies(board: seq<LeaderboardEntry>, e: LeaderboardEntry)
    requires SortedDesc(board)
    ensures Saved(board, e) == Top(InsertAfterTies(board, e))
  {
    SortSorted(board);
    assert (board + [e])[..|board + [e]| - 1] == board;
  }

  /** What a save writes: sorted, at most 50 long, nothing but the old
      entries and the new one, the new one kept and the list one longer
      when there was room, and every dropped entry scoring at most what
      every kept entry scores. */
  lemma SavedFacts(board: seq<LeaderboardEntry>, e: LeaderboardEntry)
    requires SortedDesc(board) && |board| <= MaxEntries
    ensures var r := Saved(board, e);
      var all := SortByScore(board + [e]);
      && SortedDesc(r) && |r| <= MaxEntries
      && multiset(r) <= multiset(board) + multiset{e}
      && (|board| < MaxEntries ==> |r| == |board| + 1 && e in r && multiset(r) == multiset(board) + multiset{e})
      && (forall i, j :: 0 <= i < |r| <= j < |all| ==> all[j].score <= r[i].score)
  {
    var all := SortByScore(board + [e]);
    SortByScoreSorts(board + [e]);
    var r := Top(all);
    assert all == r + all[|r|..];
    assert multiset(board + [e]) == multiset(board) + multiset{e};
    if |board| < MaxEntries {
      assert r == all;
      assert e in multiset(all);
    }
  }

  /** Nothing stored, or storage that does not read back, shows as empty. */
  lemma EmptyOrUnreadableIsEmpty()
    ensures Board(Absent) == [] && Board(Unreadable) == []
  {
  }

  /** The storage behind the leaderboard. */
  class ScoreStore {
    var stored: Stored

    constructor (initial: Stored)
      ensures stored == initial
    {
      stored := initial;
    }

    /** `getLeaderboard`. */
    method GetLeaderboard() returns (r: seq<LeaderboardEntry>)
      ensures r == Board(stored)
    {
      match stored {
        case Absent =>
          return [];
        case Unreadable =>
          return [];
        case Entries(entries) =>
          var sorted := SortByScore(entries);
          r := Top(sorted);
      }
    }

    /** `saveScore`: read the board, push the entry, sort, keep 50, write
        back. A write that fails (the storage is full) leaves the stored
        value as it was. */
    method SaveScore(entry: LeaderboardEntry, writeSucceeds: bool)
      modifies this
      ensures writeSucceeds ==> stored == Entries(Saved(Board(old(stored)), entry))
      ensures !writeSucceeds ==> stored == old(stored)
    {
      var current := GetLeaderboard();
      current := current + [entry];
      var updated := Top(SortByScore(current));
      if writeSucceeds {
        stored := Entries(updated);
      }
    }
  }
}
