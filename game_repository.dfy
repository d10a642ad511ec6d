/** The board of live games: an in-memory list changed in place, and the
    first-match queries the service asks of it. */
module Games {
  import opened Wrappers
  import opened Domain
  import opened Search

  /** Index of the first game on `board` whose id is `id`. */
  function FindById(board: seq<Game>, id: string): (r: Option<nat>)
    ensures r.Some? ==> r.value < |board| && board[r.value].id == id
    ensures r.Some? ==> forall j :: 0 <= j < r.value ==> board[j].id != id
    ensures r.None? <==> forall j :: 0 <= j < |board| ==> board[j].id != id
  {
    FirstIndex(board, (g: Game) => g.id == id)
  }

  /** `List<Game>.Remove`: drops the first element equal to `game`, if any. */
  function RemoveFirst(board: seq<Game>, game: Game): (r: seq<Game>)
    ensures game !in board ==> r == board
    ensures game in board ==> |r| == |board| - 1
    ensures multiset(r) == multiset(board) - multiset{game}
  {
    if |board| == 0 then []
    else if board[0] == game then
      assert board == [board[0]] + board[1..];
      board[1..]
    else
      assert board == [board[0]] + board[1..]; [board[0]] + RemoveFirst(board[1..], game)
  }

  /** Removing the first occurrence of the element at `k` deletes exactly
      position `k` and keeps the others in their order. */
  lemma {:induction false} RemoveFirstAt(board: seq<Game>, k: nat)
    requires k < |board| && board[k] !in board[..k]
    ensures RemoveFirst(board, board[k]) == board[..k] + board[k + 1..]
  {
    if k > 0 {
      assert board[0] != board[k] by { assert board[0] in board[..k]; }
      assert board[1..][k - 1] == board[k];
      assert board[1..][..k - 1] == board[1..k];
      RemoveFirstAt(board[1..], k - 1);
      assert board[1..][k..] == board[k + 1..];
      assert [board[0]] + board[1..k] == board[..k];
    }
  }

  /** True when `teamName` is the home or away side of some game on `board`. */
  predicate Playing(board: seq<Game>, teamName: string) {
    exists i :: 0 <= i < |board| && board[i].Plays(teamName)
  }

  /** True when the two games have a team name in common. */
  predicate SharesTeam(a: Game, b: Game) {
    b.Plays(a.homeTeam.name) || b.Plays(a.awayTeam.name)
  }

  /** The state the service's rules keep: scores are never negative, ids are
      unique, and no team takes part in two live games. */
  ghost predicate WellFormed(board: seq<Game>) {
    && (forall i :: 0 <= i < |board| ==> board[i].homeScore >= 0 && board[i].awayScore >= 0)
    && (forall i, j :: 0 <= i < j < |board| ==> board[i].id != board[j].id)
    && (forall i, j :: 0 <= i < j < |board| ==> !SharesTeam(board[i], board[j]))
  }

  /** Appending a game with a fresh id, non-negative scores and teams that are
      not playing keeps the board well formed. */
  lemma AddKeepsWellFormed(board: seq<Game>, game: Game)
    requires WellFormed(board)
    requires game.homeScore >= 0 && game.awayScore >= 0
    requires FindById(board, game.id).None?
    requires !Playing(board, game.homeTeam.name) && !Playing(board, game.awayTeam.name)
    ensures WellFormed(board + [game])
  {
  }

  /** Deleting one game keeps the board well formed. */
  lemma RemoveKeepsWellFormed(board: seq<Game>, k: nat)
    requires WellFormed(board) && k < |board|
    ensures WellFormed(board[..k] + board[k + 1..])
  {
  }

  /** Overwriting one game's scores with non-negative values keeps the board
      well formed: ids and teams are untouched. */
  lemma RescoreKeepsWellFormed(board: seq<Game>, k: nat, homeTeamScore: int, awayTeamScore: int)
    requires WellFormed(board) && k < |board|
    requires homeTeamScore >= 0 && awayTeamScore >= 0
    ensures WellFormed(board[k := board[k].(homeScore := homeTeamScore, awayScore := awayTeamScore)])
  {
  }

  class GameRepository {
    /** The live games, in the order they were added. */
    var boardGames: seq<Game>

    constructor ()
      ensures boardGames == []
    {
      boardGames := [];
    }

    /** The board itself, in insertion order. */
    function GetAll(): (games: seq<Game>)
      reads this
      ensures games == boardGames
    {
      boardGames
    }

    /** Whether any game is live. */
    predicate Any()
      reads this
      ensures Any() <==> |boardGames| > 0
    {
      boardGames != []
    }

    /** Whether `teamName` is the home or away side of some live game. */
    method ExistsByTeam(teamName: string) returns (found: bool)
      ensures found <==> Playing(boardGames, teamName)
    {
      found := false;
      var i := 0;
      while i < |boardGames| && !found
        invariant 0 <= i <= |boardGames|
        invariant found <==> exists j :: 0 <= j < i && boardGames[j].Plays(teamName)
      {
        found := boardGames[i].Plays(teamName);
        i := i + 1;
      }
    }

    /** The position of the first game with id `id`, scanning from the front. */
    method IndexById(id: string) returns (r: Option<nat>)
      ensures r == FindById(boardGames, id)
    {
      var i := 0;
      while i < |boardGames|
        invariant 0 <= i <= |boardGames|
        invariant forall j :: 0 <= j < i ==> boardGames[j].id != id
      {
        if boardGames[i].id == id {
          return Some(i);
        }
        i := i + 1;
      }
      return None;
    }

    /** The first game with id `id`, or none. */
    method GetById(id: string) returns (game: Option<Game>)
      ensures game.None? <==> forall j :: 0 <= j < |boardGames| ==> boardGames[j].id != id
      ensures game.Some? ==> game.value.id == id
      ensures game.Some? ==> game.value == boardGames[FindById(boardGames, id).value]
    {
      var index := IndexById(id);
      game := if index.Some? then Some(boardGames[index.value]) else None;
    }

    /** Appends `game`; no check of its id or teams is made here. */
    method Add(game: Game)
      modifies this
      ensures boardGames == old(boardGames) + [game]
    {
      boardGames := boardGames + [game];
    }

    /** Deletes the first game equal to `game`; a game not on the board is ignored. */
    method Remove(game: Game)
      modifies this
      ensures boardGames == RemoveFirst(old(boardGames), game)
    {
      boardGames := RemoveFirst(boardGames, game);
    }

    /** Overwrites the scores of the first game with id `id` and returns it,
        or returns none and changes nothing when no game has that id. No
        score is validated here. */
    method UpdateScore(id: string, homeTeamScore: int, awayTeamScore: int) returns (game: Option<Game>)
      modifies this
      ensures FindById(old(boardGames), id).None? ==> game.None? && boardGames == old(boardGames)
      ensures FindById(old(boardGames), id).Some? ==>
                var k := FindById(old(boardGames), id).value;
                && boardGames == old(boardGames)[k := old(boardGames)[k].(homeScore := homeTeamScore, awayScore := awayTeamScore)]
                && game == Some(boardGames[k])
      ensures game.Some? ==>
                && game.value.homeScore == homeTeamScore && game.value.awayScore == awayTeamScore
                && game.value.TotalOverallScore() == homeTeamScore + awayTeamScore
    {
      var index := IndexById(id);
      if index.Some? {
        var k := index.value;
        boardGames := boardGames[k := boardGames[k].(homeScore := homeTeamScore, awayScore := awayTeamScore)];
        game := Some(boardGames[k]);
      } else {
        game := None;
      }
    }
  }
}
