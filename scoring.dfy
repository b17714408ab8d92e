/**
 * The match context and its numbers: difficulty, the sink multiplier, the
 * win bonus shown at the end, and the top-10 high-score table.
 */
module Scoring {
  import opened Wrappers

  datatype Difficulty = Easy | Medium | Hard

  function Rank(d: Difficulty): nat {
    match d
    case Easy => 0
    case Medium => 1
    case Hard => 2
  }

  /** The factor a sink is worth: 1, 2 or 3 for easy, medium, hard. */
  function Multiplier(d: Difficulty): (m: nat)
    ensures m == Rank(d) + 1
  {
    if d == Easy then 1 else if d == Medium then 2 else 3
  }

  /** Points the player earns for sinking a ship of this size. */
  function SinkPoints(size: nat, d: Difficulty): nat {
    size * 10 * Multiplier(d)
  }

  /** A harder game never pays less for the same sink. */
  lemma SinkPointsGrowWithDifficulty(size: nat, d1: Difficulty, d2: Difficulty)
    requires Rank(d1) <= Rank(d2)
    ensures SinkPoints(size, d1) <= SinkPoints(size, d2)
    ensures SinkPoints(size, d1) == SinkPoints(size, d2) <==> d1 == d2 || size == 0
  {
    assert SinkPoints(size, d2) - SinkPoints(size, d1) == size * 10 * (Rank(d2) - Rank(d1));
  }

  /** The points `recordGameResult` returns when the score service fails: 0 on a loss, otherwise 100/150/200. */
  function FallbackPoints(won: bool, d: Difficulty): (p: nat)
    ensures p == 0 <==> !won
    ensures won ==> p == 100 + 50 * Rank(d)
  {
    if won then (if d == Easy then 100 else if d == Medium then 150 else 200) else 0
  }

  /** What the score service gave back: no user id to report for, an answer, or a failure. */
  datatype Reply = NoUser | Answered(points: Option<int>) | Failed

  /** The value `recordGameResult(won)` resolves to (undefined is None). */
  function RecordGameResult(reply: Reply, won: bool, d: Difficulty): (earned: Option<int>)
  {
    match reply
    case NoUser => None
    case Answered(points) => points
    case Failed => Some(FallbackPoints(won, d))
  }

  /** JavaScript truthiness of a number that may be undefined. */
  predicate Truthy(p: Option<int>) {
    p.Some? && p.value != 0
  }

  /**
   * The bonus shown after a win, as the expression is written: `||` binds
   * tighter than `?:`, so it reads `(earningPoints || easy) ? 100 : (medium ? 150 : 200)`.
   * Any truthy reply yields 100; only a falsy one falls back to the difficulty table.
   */
  function DisplayedReward(earning: Option<int>, d: Difficulty): (r: nat)
    ensures Truthy(earning) ==> r == 100
    ensures !Truthy(earning) ==> r == FallbackPoints(true, d)
  {
    if Truthy(earning) || d == Easy then 100 else if d == Medium then 150 else 200
  }

  /**
   * What a win displays, by reply: the server's own points are never shown,
   * a failed call (whose fallback is truthy) always shows 100, and only a
   * missing user or a falsy answer shows the difficulty's bonus.
   */
  lemma WinRewardByReply(reply: Reply, d: Difficulty)
    ensures var shown := DisplayedReward(RecordGameResult(reply, true, d), d);
      && (reply.Failed? ==> shown == 100)
      && (reply.Answered? && Truthy(reply.points) ==> shown == 100)
      && (reply.NoUser? || (reply.Answered? && !Truthy(reply.points)) ==> shown == 100 + 50 * Rank(d))
  {
  }

  /** One row of the high-score table. */
  datatype HighScore = HighScore(difficulty: Difficulty, score: int)

  ghost predicate SortedDesc(s: seq<HighScore>) {
    forall i, j :: 0 <= i < j < |s| ==> s[i].score >= s[j].score
  }

  /** Put x before the first entry with a strictly lower score (so after every equal one). */
  function InsertByScore(x: HighScore, s: seq<HighScore>): (r: seq<HighScore>)
    ensures |r| == |s| + 1
    ensures multiset(r) == multiset(s) + multiset{x}
  {
    if s == [] then [x]
    else if s[0].score < x.score then [x] + s
    else
      assert s == [s[0]] + s[1..];
      [s[0]] + InsertByScore(x, s[1..])
  }

  lemma {:induction false} InsertKeepsSorted(x: HighScore, s: seq<HighScore>)
    requires SortedDesc(s)
    ensures SortedDesc(InsertByScore(x, s))
  {
    if s != [] && s[0].score >= x.score {
      var rest := InsertByScore(x, s[1..]);
      InsertKeepsSorted(x, s[1..]);
      forall k | 0 <= k < |rest|
        ensures rest[k].score <= s[0].score
      {
        assert rest[k] in multiset(rest);
        if rest[k] != x {
          assert rest[k] in multiset(s[1..]);
          var m :| 0 <= m < |s[1..]| && s[1..][m] == rest[k];
          assert s[m + 1] == rest[k];
        }
      }
    }
  }

  /**
   * `entries.sort((a, b) => b.score - a.score)`: a stable sort, highest score
   * first, as an insertion sort over the entries in their original order.
   */
  function SortByScore(s: seq<HighScore>): (r: seq<HighScore>)
    ensures |r| == |s|
    ensures multiset(r) == multiset(s)
  {
    if s == [] then []
    else
      assert s == s[..|s| - 1] + [s[|s| - 1]];
      InsertByScore(s[|s| - 1], SortByScore(s[..|s| - 1]))
  }

  /** The sort puts the highest scores first. */
  lemma {:induction false} SortIsSorted(s: seq<HighScore>)
    ensures SortedDesc(SortByScore(s))
  {
    if s != [] {
      SortIsSorted(s[..|s| - 1]);
      InsertKeepsSorted(s[|s| - 1], SortByScore(s[..|s| - 1]));
    }
  }

  /** The entries with score v, in order. */
  function WithScore(s: seq<HighScore>, v: int): seq<HighScore> {
    if s == [] then []
    else (if s[0].score == v then [s[0]] else []) + WithScore(s[1..], v)
  }

  lemma {:induction false} WithScoreAppend(a: seq<HighScore>, x: HighScore, v: int)
    ensures WithScore(a + [x], v) == WithScore(a, v) + (if x.score == v then [x] else [])
  {
    if a != [] {
      assert (a + [x])[1..] == a[1..] + [x];
      WithScoreAppend(a[1..], x, v);
    }
  }

  lemma {:induction false} WithScoreBelow(s: seq<HighScore>, v: int)
    requires SortedDesc(s)
    requires s != [] && s[0].score < v
    ensures WithScore(s, v) == []
  {
    if |s| > 1 {
      WithScoreBelow(s[1..], v);
    }
  }

  lemma {:induction false} InsertKeepsOrderOfEquals(x: HighScore, s: seq<HighScore>, v: int)
    requires SortedDesc(s)
    ensures WithScore(InsertByScore(x, s), v) == WithScore(s, v) + (if x.score == v then [x] else [])
  {
    if s == [] {
    } else if s[0].score < x.score {
      if x.score == v {
        WithScoreBelow(s, v);
      }
      assert ([x] + s)[1..] == s;
    } else {
      var rest := InsertByScore(x, s[1..]);
      InsertKeepsOrderOfEquals(x, s[1..], v);
      assert ([s[0]] + rest)[1..] == rest;
      calc {
        WithScore(InsertByScore(x, s), v);
        WithScore([s[0]] + rest, v);
        (if s[0].score == v then [s[0]] else []) + WithScore(rest, v);
      }
    }
  }

  /** The sort is stable: entries with equal scores keep their original relative order. */
  lemma {:induction false} SortIsStable(s: seq<HighScore>, v: int)
    ensures WithScore(SortByScore(s), v) == WithScore(s, v)
  {
    if s != [] {
      var init, last := s[..|s| - 1], s[|s| - 1];
      assert s == init + [last];
      assert SortByScore(s) == InsertByScore(last, SortByScore(init));
      SortIsStable(init, v);
      SortIsSorted(init);
      InsertKeepsOrderOfEquals(last, SortByScore(init), v);
      WithScoreAppend(init, last, v);
    }
  }

  function Min(a: int, b: int): int {
    if a <= b then a else b
  }

  /** `[...highScores, entry].sort(...).slice(0, 10)`. */
  function MergeHighScores(table: seq<HighScore>, entry: HighScore): (r: seq<HighScore>)
    ensures |r| == Min(|table| + 1, 10)
  {
    var sorted := SortByScore(table + [entry]);
    sorted[..Min(|sorted|, 10)]
  }

  /**
   * The merged table is ordered highest first and holds only entries of the
   * old table and the new one; while the old table has fewer than ten rows,
   * nothing is dropped.
   */
  lemma MergeHighScoresKeepsOrderAndEntries(table: seq<HighScore>, entry: HighScore)
    ensures var r := MergeHighScores(table, entry);
      && SortedDesc(r)
      && multiset(r) <= multiset(table) + multiset{entry}
      && (|table| < 10 ==> multiset(r) == multiset(table) + multiset{entry})
  {
    var sorted := SortByScore(table + [entry]);
    SortIsSorted(table + [entry]);
    var k := Min(|sorted|, 10);
    assert sorted == sorted[..k] + sorted[k..];
  }

  /** In a table ordered highest first, nothing after position k beats anything before it. */
  lemma SortedSplit(s: seq<HighScore>, k: nat)
    requires SortedDesc(s) && k <= |s|
    ensures forall x, y :: x in s[..k] && y in s[k..] ==> y.score <= x.score
  {
    forall x, y | x in s[..k] && y in s[k..] ensures y.score <= x.score {
      var i :| 0 <= i < k && s[..k][i] == x;
      var j :| 0 <= j < |s| - k && s[k..][j] == y;
      assert s[i] == x && s[k + j] == y;
    }
  }

  /**
   * The merge keeps the highest scores: every entry it drops (of the old
   * table and the new one) scores no more than every entry it keeps.
   */
  lemma MergeHighScoresKeepsTheBest(table: seq<HighScore>, entry: HighScore)
    ensures var r := MergeHighScores(table, entry);
      forall x, y :: x in r && y in multiset(table + [entry]) - multiset(r) ==> y.score <= x.score
  {
    var sorted := SortByScore(table + [entry]);
    var k := Min(|sorted|, 10);
    SortIsSorted(table + [entry]);
    SortedSplit(sorted, k);
    assert sorted == sorted[..k] + sorted[k..];
    assert multiset(table + [entry]) - multiset(sorted[..k]) == multiset(sorted[k..]);
  }

  /**
   * A new score makes the table, unless the table is full of scores at
   * least as high.
   */
  lemma NewScoreKeptUnlessBeaten(table: seq<HighScore>, entry: HighScore)
    ensures var r := MergeHighScores(table, entry);
      entry in r || (|r| == 10 && forall x :: x in r ==> x.score >= entry.score)
  {
    var sorted := SortByScore(table + [entry]);
    var r := MergeHighScores(table, entry);
    SortIsSorted(table + [entry]);
    assert entry in multiset(table + [entry]);
    assert entry in multiset(sorted);
    var k :| 0 <= k < |sorted| && sorted[k] == entry;
    if k >= 10 {
      forall x | x in r ensures x.score >= entry.score {
        var i :| 0 <= i < |r| && r[i] == x;
        assert sorted[i] == x;
      }
    } else {
      assert r[k] == entry;
    }
  }
}
