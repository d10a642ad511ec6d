/** The order of the board summary: total score descending, then creation
    time descending, with full ties left in board order (LINQ's
    `OrderByDescending(...).ThenByDescending(...)` is a stable sort). */
module Ranking {
  import opened Domain

  /** `a` is listed strictly before `b`: a higher total, or the same total
      and a later start. */
  predicate Outranks(a: Game, b: Game) {
    || a.TotalOverallScore() > b.TotalOverallScore()
    || (a.TotalOverallScore() == b.TotalOverallScore() && a.createdAt > b.createdAt)
  }

  /** `a` and `b` have the same sort key, so only stability orders them. */
  predicate Tied(a: Game, b: Game) {
    a.TotalOverallScore() == b.TotalOverallScore() && a.createdAt == b.createdAt
  }

  /** No game is listed after a game it outranks. */
  ghost predicate Ranked(s: seq<Game>) {
    forall i, j :: 0 <= i < j < |s| ==> !Outranks(s[j], s[i])
  }

  /** The games of `s` that have the same sort key as `key`, in their order in `s`. */
  function TiesWith(s: seq<Game>, key: Game): (r: seq<Game>)
    ensures |r| <= |s|
    ensures forall i :: 0 <= i < |r| ==> Tied(r[i], key)
  {
    if |s| == 0 then []
    else (if Tied(s[0], key) then [s[0]] else []) + TiesWith(s[1..], key)
  }

  /** Inserts `game` before the first element of `ranked` that does not
      outrank it, hence ahead of every element tied with it. */
  function Insert(game: Game, ranked: seq<Game>): (r: seq<Game>)
    ensures |r| == |ranked| + 1
    ensures multiset(r) == multiset(ranked) + multiset{game}
  {
    if |ranked| == 0 then [game]
    else if Outranks(ranked[0], game) then
      assert ranked == [ranked[0]] + ranked[1..];
      [ranked[0]] + Insert(game, ranked[1..])
    else [game] + ranked
  }

  /** The summary order of `games`: a stable insertion sort by `Outranks`. */
  function RankForSummary(games: seq<Game>): (r: seq<Game>)
    ensures |r| == |games|
    ensures multiset(r) == multiset(games)
  {
    if |games| == 0 then []
    else
      assert games == [games[0]] + games[1..];
      Insert(games[0], RankForSummary(games[1..]))
  }

  /** Inserting into a ranked sequence keeps it ranked. */
  lemma {:induction false} InsertKeepsRanked(game: Game, ranked: seq<Game>)
    requires Ranked(ranked)
    ensures Ranked(Insert(game, ranked))
  {
    if |ranked| > 0 && Outranks(ranked[0], game) {
      var tail := ranked[1..];
      var rest := Insert(game, tail);
      InsertKeepsRanked(game, tail);
      forall j | 0 <= j < |rest|
        ensures !Outranks(rest[j], ranked[0])
      {
        assert rest[j] in multiset(rest);
        if rest[j] != game {
          assert rest[j] in multiset(tail);
          var m :| 0 <= m < |tail| && tail[m] == rest[j];
          assert ranked[m + 1] == rest[j];
        }
      }
    }
  }

  /** The summary order is ranked. */
  lemma {:induction false} RankForSummaryRanked(games: seq<Game>)
    ensures Ranked(RankForSummary(games))
  {
    if |games| > 0 {
      RankForSummaryRanked(games[1..]);
      InsertKeepsRanked(games[0], RankForSummary(games[1..]));
    }
  }

  /** The tie class of `key` after an insertion: `game` comes first when it
      belongs to it, the rest keep their order. */
  lemma {:induction false} InsertTies(game: Game, ranked: seq<Game>, key: Game)
    ensures TiesWith(Insert(game, ranked), key) ==
              (if Tied(game, key) then [game] else []) + TiesWith(ranked, key)
  {
    if |ranked| > 0 && Outranks(ranked[0], game) {
      var tail := ranked[1..];
      InsertTies(game, tail, key);
      var r := Insert(game, ranked);
      assert r[0] == ranked[0] && r[1..] == Insert(game, tail);
      assert TiesWith(r, key) == (if Tied(ranked[0], key) then [ranked[0]] else []) + TiesWith(Insert(game, tail), key);
      assert Tied(game, key) ==> !Tied(ranked[0], key);
    } else if |ranked| > 0 {
      var r := Insert(game, ranked);
      assert r[1..] == ranked;
    } else {
      assert Insert(game, ranked)[1..] == [];
    }
  }

  /** Stability: for every sort key, the games tied on that key appear in the
      summary in the same order as on the board. */
  lemma {:induction false} RankForSummaryStable(games: seq<Game>, key: Game)
    ensures TiesWith(RankForSummary(games), key) == TiesWith(games, key)
  {
    if |games| > 0 {
      RankForSummaryStable(games[1..], key);
      InsertTies(games[0], RankForSummary(games[1..]), key);
    }
  }

  /** Stability, for all sort keys at once. */
  lemma RankForSummaryStableForAll(games: seq<Game>)
    ensures forall key :: TiesWith(RankForSummary(games), key) == TiesWith(games, key)
  {
    forall key ensures TiesWith(RankForSummary(games), key) == TiesWith(games, key) {
      RankForSummaryStable(games, key);
    }
  }

  /** The first games of two ranked sequences holding the same games have
      the same sort key. */
  lemma RankedHeadsTied(a: seq<Game>, b: seq<Game>)
    requires Ranked(a) && Ranked(b)
    requires multiset(a) == multiset(b) && |a| > 0
    ensures |b| > 0 && Tied(a[0], b[0])
  {
    assert |b| == |multiset(b)| == |a|;
    assert a[0] in multiset(b) && b[0] in multiset(a);
    var m :| 0 <= m < |b| && b[m] == a[0];
    var n :| 0 <= n < |a| && a[n] == b[0];
  }

  /** Dropping equal heads keeps the multisets equal. */
  lemma DropEqualHeads(a: seq<Game>, b: seq<Game>)
    requires |a| > 0 && |b| > 0 && a[0] == b[0]
    requires multiset(a) == multiset(b)
    ensures multiset(a[1..]) == multiset(b[1..])
  {
    assert a == [a[0]] + a[1..] && b == [b[0]] + b[1..];
    assert multiset(a[1..]) == multiset(a) - multiset{a[0]};
    assert multiset(b[1..]) == multiset(b) - multiset{b[0]};
  }

  /** Two ranked sequences holding the same games, with every tie class in
      the same order, are equal: sorting by the key and keeping ties stable
      leaves no freedom. */
  lemma {:induction false} RankedTiesUnique(a: seq<Game>, b: seq<Game>)
    requires Ranked(a) && Ranked(b)
    requires multiset(a) == multiset(b)
    requires forall key :: TiesWith(a, key) == TiesWith(b, key)
    ensures a == b
  {
    if |a| == 0 {
      assert |b| == |multiset(b)| == 0;
    } else {
      RankedHeadsTied(a, b);
      assert TiesWith(a, a[0]) == [a[0]] + TiesWith(a[1..], a[0]);
      assert TiesWith(b, a[0]) == [b[0]] + TiesWith(b[1..], a[0]);
      assert TiesWith(a, a[0]) == TiesWith(b, a[0]);
      assert a[0] == TiesWith(a, a[0])[0] == TiesWith(b, a[0])[0] == b[0];
      DropEqualHeads(a, b);
      forall key
        ensures TiesWith(a[1..], key) == TiesWith(b[1..], key)
      {
        var head := if Tied(a[0], key) then [a[0]] else [];
        assert TiesWith(a, key) == head + TiesWith(a[1..], key);
        assert TiesWith(b, key) == head + TiesWith(b[1..], key);
        assert TiesWith(a[1..], key) == TiesWith(a, key)[|head|..];
        assert TiesWith(b[1..], key) == TiesWith(b, key)[|head|..];
      }
      RankedTiesUnique(a[1..], b[1..]);
      assert a == [a[0]] + a[1..] && b == [b[0]] + b[1..];
    }
  }

  /** The summary order is the only ranked, stable permutation of the board. */
  lemma SummaryIsDetermined(games: seq<Game>, r: seq<Game>)
    requires multiset(r) == multiset(games)
    requires Ranked(r)
    requires forall key :: TiesWith(r, key) == TiesWith(games, key)
    ensures r == RankForSummary(games)
  {
    RankForSummaryRanked(games);
    RankForSummaryStableForAll(games);
    RankedTiesUnique(r, RankForSummary(games));
  }
}
