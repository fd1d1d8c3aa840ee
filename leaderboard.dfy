/**
 * The two-team game's leaderboard (`LeaderboardManager` in game.js): each saved
 * game adds one entry, the list is re-sorted by score, highest first, with the
 * stable built-in sort, and only the best ten are kept.
 */
module Leaderboard {
  import opened Sorting
  import HeadToHead

  /** What a saved entry records about the game besides the winner. */
  datatype GameStats = GameStats(
    correctAnswers: nat,
    totalAnswers: nat,
    quickAnswers: nat,
    totalTimeMs: int,
    rounds: HeadToHead.PerRound<HeadToHead.TeamScores>)

  datatype Entry = Entry(id: int, teamName: string, score: nat, stats: GameStats, date: string, timestamp: int)

  /** `slice(0, 10)` in `addEntry`. */
  const Capacity: nat := 10
  /** The default `limit` of `getTopEntries`, also what the results screen asks for. */
  const DefaultTopCount: nat := 5

  function EntryScore(e: Entry): int
  {
    e.score
  }

  /** The end position `Array.prototype.slice(0, end)` stops at on a list of length `n`. */
  function SliceEnd(n: nat, end: int): (k: nat)
    ensures k <= n
  {
    if end < 0 then (if n + end > 0 then n + end else 0)
    else if end < n then end
    else n
  }

  /** The entries after `addEntry` with the new entry `e`. */
  function Added(entries: seq<Entry>, e: Entry): seq<Entry>
  {
    var sorted := SortDesc(entries + [e], EntryScore);
    sorted[..SliceEnd(|sorted|, Capacity)]
  }

  /**
   * After an addition the board holds at most ten entries ordered by score,
   * highest first, all taken from the old entries and the new one; while fewer
   * than ten were stored nothing is lost, and an entry that is dropped scores no
   * more than any entry that stays.
   */
  lemma AddedBoard(entries: seq<Entry>, e: Entry)
    ensures var r := Added(entries, e);
      && |r| == (if |entries| + 1 < Capacity then |entries| + 1 else Capacity)
      && SortedDesc(r, EntryScore)
      && multiset(r) <= multiset(entries + [e])
      && (|entries| < Capacity ==> multiset(r) == multiset(entries + [e]))
      && forall x, y :: x in entries + [e] && x !in r && y in r ==> y.score >= x.score
  {
    var all := entries + [e];
    var sorted := SortDesc(all, EntryScore);
    var k := SliceEnd(|sorted|, Capacity);
    var r := sorted[..k];
    SortDescSorted(all, EntryScore);
    assert sorted == r + sorted[k..];
    assert multiset(sorted) == multiset(r) + multiset(sorted[k..]);
    if |entries| < Capacity {
      assert r == sorted;
    }
    forall x, y | x in all && x !in r && y in r
      ensures y.score >= x.score
    {
      assert x in multiset(sorted);
      var i :| 0 <= i < |sorted| && sorted[i] == x;
      var j :| 0 <= j < |r| && r[j] == y;
      assert i >= k;
      assert EntryScore(sorted[j]) >= EntryScore(sorted[i]);
    }
  }

  /**
   * On a board already in order, the new entry lands right after every entry
   * scoring at least as much, so among equal scores the older entry stays ahead;
   * the result is then cut to ten.
   */
  lemma AddedToOrderedBoard(entries: seq<Entry>, e: Entry)
    requires SortedDesc(entries, EntryScore)
    ensures CountAtLeast(entries, EntryScore, e.score) <= |entries|
    ensures var p := CountAtLeast(entries, EntryScore, e.score);
      var inserted := entries[..p] + [e] + entries[p..];
      Added(entries, e) == inserted[..SliceEnd(|inserted|, Capacity)]
  {
    SortDescAppend(entries, e, EntryScore);
    InsertDescSplit(entries, e, EntryScore);
  }

  class LeaderboardManager {
    var entries: seq<Entry>

    /** `loadLeaderboard`: the stored list, or empty when nothing is stored. */
    constructor (stored: seq<Entry>)
      ensures entries == stored
    {
      entries := stored;
    }

    /**
     * `addEntry`: the entry's id and timestamp are both the clock `now`; the
     * board becomes `Added`, so it is ordered and holds at most ten entries.
     */
    method AddEntry(teamName: string, score: nat, stats: GameStats, date: string, now: int)
      modifies this
      ensures entries == Added(old(entries), Entry(now, teamName, score, stats, date, now))
      ensures SortedDesc(entries, EntryScore) && |entries| <= Capacity
    {
      var entry := Entry(now, teamName, score, stats, date, now);
      AddedBoard(entries, entry);
      var sorted := SortDesc(entries + [entry], EntryScore);
      entries := sorted[..SliceEnd(|sorted|, Capacity)];
    }

    /**
     * `getTopEntries(limit)`: the first `limit` entries, all of them when there
     * are fewer; a negative limit drops that many from the end, as `slice` does.
     */
    method GetTopEntries(limit: int) returns (top: seq<Entry>)
      ensures limit >= 0 ==> top == entries[..if limit < |entries| then limit else |entries|]
      ensures limit < 0 ==> top == entries[..if |entries| + limit > 0 then |entries| + limit else 0]
    {
      top := entries[..SliceEnd(|entries|, limit)];
    }

    /**
     * The list `updateLeaderboardDisplay` shows: `getTopEntries` with the
     * default limit, so the best five entries in board order, or all of them
     * when fewer are stored.
     */
    method DisplayedEntries() returns (top: seq<Entry>)
      ensures |top| == (if |entries| < DefaultTopCount then |entries| else DefaultTopCount)
      ensures top == entries[..|top|]
    {
      top := GetTopEntries(DefaultTopCount);
    }
  }

  /** The `stats` object `saveToLeaderboard` stores for the game. */
  function StatsOf(game: HeadToHead.GameState): GameStats
    reads game
  {
    GameStats(game.correctAnswers, game.totalAnswers, game.quickAnswers, game.totalTimeMs, game.roundScores)
  }

  /**
   * `saveToLeaderboard`: one entry for the winner (both names on a tie) with the
   * larger of the two scores.
   */
  method SaveToLeaderboard(board: LeaderboardManager, game: HeadToHead.GameState, date: string, now: int)
    modifies board
    ensures board.entries == Added(old(board.entries),
      Entry(now, game.Outcome().winner, game.Outcome().score, StatsOf(game), date, now))
  {
    var outcome := game.Outcome();
    board.AddEntry(outcome.winner, outcome.score, StatsOf(game), date, now);
  }
}
