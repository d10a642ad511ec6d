/** The rule layer over the two repositories: starting, finishing and
    scoring games, and the ranked summary. Every failure is reported before
    anything is written. */
module ScoreBoard {
  import opened Wrappers
  import opened Domain
  import opened Games
  import opened Teams
  import opened Ranking

  datatype Side = Home | Away

  /** Why a score was refused: negative, or below the stored score of `side`. */
  datatype ScoreProblem = Negative | BelowCurrent(side: Side, attempted: int, current: int)

  /** What a failed lookup was looking for. */
  datatype Lookup = TeamByName(name: string) | GameOnBoard

  /** One constructor per exception kind the service throws. */
  datatype Error =
    | ArgumentNull(parameter: string)
    | InvalidTeam(parameter: string)
    | InvalidScore(problem: ScoreProblem)
    | EntityNotFound(lookup: Lookup)
    | TeamAlreadyInBoardGame(team: Team)
    | NoneGamesInBoard

  const HomeTeamNameParameter: string := "homeTeamName"
  const AwayTeamNameParameter: string := "awayTeamName"
  const GameParameter: string := "game"

  class ScoreBoardService {
    const gameRepository: GameRepository
    const teamRepository: TeamRepository

    constructor (gameRepository: GameRepository, teamRepository: TeamRepository)
      ensures this.gameRepository == gameRepository && this.teamRepository == teamRepository
    {
      this.gameRepository := gameRepository;
      this.teamRepository := teamRepository;
    }

    /** Fails, naming `team`, when that team is already on a live game. */
    method CheckIfTeamIsInBoardGame(team: Team) returns (r: Result<(), Error>)
      ensures r.Failure? <==> Playing(gameRepository.boardGames, team.name)
      ensures r.Failure? ==> r.error == TeamAlreadyInBoardGame(team)
    {
      var playing := gameRepository.ExistsByTeam(team.name);
      if playing {
        return Failure(TeamAlreadyInBoardGame(team));
      }
      return Success(());
    }

    /** Starts a game between two registered teams that are not playing, at
        0-0, with the fresh id `id` and creation time `now`. The checks run in
        this order: home name empty, away name empty, home team unknown, away
        team unknown, home team playing, away team playing. Nothing stops a
        team from meeting itself. */
    method StartGame(homeTeamName: string, awayTeamName: string, id: string, now: nat)
      returns (r: Result<Game, Error>)
      requires FindById(gameRepository.boardGames, id).None?
      modifies gameRepository
      ensures homeTeamName == [] ==> r == Failure(InvalidTeam(HomeTeamNameParameter))
      ensures homeTeamName != [] && awayTeamName == [] ==> r == Failure(InvalidTeam(AwayTeamNameParameter))
      ensures homeTeamName != [] && awayTeamName != [] ==>
                var teams := teamRepository.teams;
                var board := old(gameRepository.boardGames);
                if FindByName(teams, homeTeamName).None? then
                  r == Failure(EntityNotFound(TeamByName(homeTeamName)))
                else if FindByName(teams, awayTeamName).None? then
                  r == Failure(EntityNotFound(TeamByName(awayTeamName)))
                else
                  var home := teams[FindByName(teams, homeTeamName).value];
                  var away := teams[FindByName(teams, awayTeamName).value];
                  if Playing(board, homeTeamName) then
                    r == Failure(TeamAlreadyInBoardGame(home))
                  else if Playing(board, awayTeamName) then
                    r == Failure(TeamAlreadyInBoardGame(away))
                  else
                    && r == Success(Game(id, home, away, 0, 0, now))
                    && gameRepository.boardGames == board + [r.value]
      ensures r.Failure? ==> gameRepository.boardGames == old(gameRepository.boardGames)
      ensures WellFormed(old(gameRepository.boardGames)) ==> WellFormed(gameRepository.boardGames)
    {
      if |homeTeamName| == 0 {
        return Failure(InvalidTeam(HomeTeamNameParameter));
      }
      if |awayTeamName| == 0 {
        return Failure(InvalidTeam(AwayTeamNameParameter));
      }

      var homeTeam := teamRepository.GetByName(homeTeamName);
      if homeTeam.None? {
        return Failure(EntityNotFound(TeamByName(homeTeamName)));
      }
      var awayTeam := teamRepository.GetByName(awayTeamName);
      if awayTeam.None? {
        return Failure(EntityNotFound(TeamByName(awayTeamName)));
      }

      var homeCheck := CheckIfTeamIsInBoardGame(homeTeam.value);
      if homeCheck.Failure? {
        return Failure(homeCheck.error);
      }
      var awayCheck := CheckIfTeamIsInBoardGame(awayTeam.value);
      if awayCheck.Failure? {
        return Failure(awayCheck.error);
      }

      var game := Game(id, homeTeam.value, awayTeam.value, 0, 0, now);
      ghost var board := gameRepository.boardGames;
      gameRepository.Add(game);
      if WellFormed(board) {
        AddKeepsWellFormed(board, game);
      }
      return Success(game);
    }

    /** Removes the first game with the id of `game`. The checks run in this
        order: `game` absent, board empty (even for a game never on it), no
        game with that id. */
    method FinishGame(game: Option<Game>) returns (r: Result<(), Error>)
      modifies gameRepository
      ensures game.None? ==> r == Failure(ArgumentNull(GameParameter))
      ensures game.Some? && old(gameRepository.boardGames) == [] ==> r == Failure(NoneGamesInBoard)
      ensures game.Some? && old(gameRepository.boardGames) != [] &&
              FindById(old(gameRepository.boardGames), game.value.id).None? ==>
                r == Failure(EntityNotFound(GameOnBoard))
      ensures r.Success? <==> game.Some? && FindById(old(gameRepository.boardGames), game.value.id).Some?
      ensures r.Failure? ==> gameRepository.boardGames == old(gameRepository.boardGames)
      ensures r.Success? ==>
                var board := old(gameRepository.boardGames);
                var k := FindById(board, game.value.id).value;
                gameRepository.boardGames == board[..k] + board[k + 1..]
      ensures WellFormed(old(gameRepository.boardGames)) ==> WellFormed(gameRepository.boardGames)
    {
      if game.None? {
        return Failure(ArgumentNull(GameParameter));
      }
      if !gameRepository.Any() {
        return Failure(NoneGamesInBoard);
      }
      var existingGame := gameRepository.GetById(game.value.id);
      if existingGame.None? {
        return Failure(EntityNotFound(GameOnBoard));
      }

      ghost var board := gameRepository.boardGames;
      ghost var k := FindById(board, game.value.id).value;
      assert board[k] !in board[..k] by {
        forall j | 0 <= j < k ensures board[..k][j] != board[k] {
          assert board[j].id != board[k].id;
        }
      }
      RemoveFirstAt(board, k);
      gameRepository.Remove(existingGame.value);
      if WellFormed(board) {
        RemoveKeepsWellFormed(board, k);
      }
      return Success(());
    }

    /** Sets both scores of the game with the id of `game`. The checks run in
        this order: `game` absent, home score negative, away score negative,
        no game with that id, home score below the stored one, away score
        below the stored one. Hence a stored score never decreases. */
    method UpdateScore(game: Option<Game>, homeTeamScore: int, awayTeamScore: int)
      returns (r: Result<Game, Error>)
      modifies gameRepository
      ensures game.None? ==> r == Failure(ArgumentNull(GameParameter))
      ensures game.Some? && homeTeamScore < 0 ==> r == Failure(InvalidScore(Negative))
      ensures game.Some? && homeTeamScore >= 0 && awayTeamScore < 0 ==> r == Failure(InvalidScore(Negative))
      ensures game.Some? && homeTeamScore >= 0 && awayTeamScore >= 0 ==>
                var board := old(gameRepository.boardGames);
                match FindById(board, game.value.id)
                case None => r == Failure(EntityNotFound(GameOnBoard))
                case Some(k) =>
                  if homeTeamScore < board[k].homeScore then
                    r == Failure(InvalidScore(BelowCurrent(Home, homeTeamScore, board[k].homeScore)))
                  else if awayTeamScore < board[k].awayScore then
                    r == Failure(InvalidScore(BelowCurrent(Away, awayTeamScore, board[k].awayScore)))
                  else
                    && gameRepository.boardGames ==
                         board[k := board[k].(homeScore := homeTeamScore, awayScore := awayTeamScore)]
                    && r == Success(gameRepository.boardGames[k])
      ensures r.Failure? ==> gameRepository.boardGames == old(gameRepository.boardGames)
      ensures |gameRepository.boardGames| == |old(gameRepository.boardGames)|
      ensures forall i :: 0 <= i < |gameRepository.boardGames| ==>
                var before := old(gameRepository.boardGames[i]);
                var after := gameRepository.boardGames[i];
                && after.id == before.id && after.homeTeam == before.homeTeam
                && after.awayTeam == before.awayTeam && after.createdAt == before.createdAt
                && after.homeScore >= before.homeScore && after.awayScore >= before.awayScore
      ensures WellFormed(old(gameRepository.boardGames)) ==> WellFormed(gameRepository.boardGames)
    {
      if game.None? {
        return Failure(ArgumentNull(GameParameter));
      }
      if homeTeamScore < 0 {
        return Failure(InvalidScore(Negative));
      }
      if awayTeamScore < 0 {
        return Failure(InvalidScore(Negative));
      }

      var existingGame := gameRepository.GetById(game.value.id);
      if existingGame.None? {
        return Failure(EntityNotFound(GameOnBoard));
      }
      if homeTeamScore < existingGame.value.homeScore {
        return Failure(InvalidScore(BelowCurrent(Home, homeTeamScore, existingGame.value.homeScore)));
      }
      if awayTeamScore < existingGame.value.awayScore {
        return Failure(InvalidScore(BelowCurrent(Away, awayTeamScore, existingGame.value.awayScore)));
      }

      ghost var board := gameRepository.boardGames;
      var updated := gameRepository.UpdateScore(game.value.id, homeTeamScore, awayTeamScore);
      if WellFormed(board) {
        RescoreKeepsWellFormed(board, FindById(board, game.value.id).value, homeTeamScore, awayTeamScore);
      }
      return Success(updated.value);
    }

    /** The board ranked for display: fails on an empty board, otherwise a
        permutation of the board sorted by total score and then start time,
        both descending, with full ties in board order. The board itself is
        only read. */
    function GetBoardGamesSummary(): (r: Result<seq<Game>, Error>)
      reads gameRepository
      ensures r.Failure? <==> gameRepository.boardGames == []
      ensures r.Failure? ==> r.error == NoneGamesInBoard
      ensures r.Success? ==> multiset(r.value) == multiset(gameRepository.boardGames)
      ensures r.Success? ==> Ranked(r.value)
      ensures r.Success? ==> forall key :: TiesWith(r.value, key) == TiesWith(gameRepository.boardGames, key)
    {
      var boardGames := gameRepository.GetAll();
      if |boardGames| == 0 then
        Failure(NoneGamesInBoard)
      else
        RankForSummaryRanked(boardGames);
        RankForSummaryStableForAll(boardGames);
        Success(RankForSummary(boardGames))
    }
  }
}
