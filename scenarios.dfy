/** The repository's unit tests, replayed against the contracts of the
    model: each method builds the same state as its test and asserts the
    outcome the test expects. */
module Scenarios {
  import opened Wrappers
  import opened Domain
  import opened Games
  import opened Teams
  import opened Ranking
  import opened ScoreBoard

  /** A service over a fresh, empty board and directory. */
  method NewService() returns (service: ScoreBoardService)
    ensures fresh(service.gameRepository) && fresh(service.teamRepository)
    ensures service.gameRepository.boardGames == [] && service.teamRepository.teams == []
  {
    var games := new GameRepository();
    var teams := new TeamRepository();
    service := new ScoreBoardService(games, teams);
  }

  function MockedGame(id: string, homeTeamScore: int, awayTeamScore: int): Game {
    Game(id, Team("Brazil"), Team("England"), homeTeamScore, awayTeamScore, 0)
  }

  /** `name` is registered, and first found, at position `k` of `teams`. */
  lemma RegisteredAt(teams: seq<Team>, name: string, k: nat)
    requires k < |teams| && teams[k].name == name
    requires forall j :: 0 <= j < k ==> teams[j].name != name
    ensures FindByName(teams, name) == Some(k)
  {
  }

  method StartGameAddsGameToBoard() {
    var service := NewService();
    service.teamRepository.Add(Team("Brazil"));
    service.teamRepository.Add(Team("England"));
    RegisteredAt(service.teamRepository.teams, "Brazil", 0);
    RegisteredAt(service.teamRepository.teams, "England", 1);
    var r := service.StartGame("Brazil", "England", "g1", 7);
    assert r.Success?;
    var game := r.value;
    assert service.gameRepository.boardGames == [game];
    assert game.homeTeam.name == "Brazil" && game.awayTeam.name == "England";
    assert game.homeScore == 0 && game.awayScore == 0;
  }

  method StartGameRejectsEmptyNames() {
    var service := NewService();
    service.teamRepository.Add(Team("England"));
    var r := service.StartGame("", "England", "g1", 0);
    assert r == Failure(InvalidTeam("homeTeamName"));

    service.teamRepository.Add(Team("Brazil"));
    r := service.StartGame("Brazil", "", "g1", 0);
    assert r == Failure(InvalidTeam("awayTeamName"));
    assert service.gameRepository.boardGames == [];
  }

  method StartGameRejectsPlayingHomeTeam() {
    var service := NewService();
    service.teamRepository.Add(Team("Brazil"));
    service.teamRepository.Add(Team("England"));
    service.gameRepository.Add(MockedGame("m", 0, 0));
    RegisteredAt(service.teamRepository.teams, "Brazil", 0);
    RegisteredAt(service.teamRepository.teams, "England", 1);
    assert service.gameRepository.boardGames[0].Plays("Brazil");
    var r := service.StartGame("Brazil", "England", "g1", 0);
    assert r == Failure(TeamAlreadyInBoardGame(Team("Brazil")));
  }

  method StartGameRejectsPlayingAwayTeam() {
    var service := NewService();
    service.teamRepository.Add(Team("Mexico"));
    service.teamRepository.Add(Team("England"));
    service.gameRepository.Add(MockedGame("m", 0, 0));
    RegisteredAt(service.teamRepository.teams, "Mexico", 0);
    RegisteredAt(service.teamRepository.teams, "England", 1);
    assert !service.gameRepository.boardGames[0].Plays("Mexico");
    assert service.gameRepository.boardGames[0].Plays("England");
    var r := service.StartGame("Mexico", "England", "g1", 0);
    assert r == Failure(TeamAlreadyInBoardGame(Team("England")));
  }

  method StartGameRejectsUnknownTeam() {
    var service := NewService();
    service.teamRepository.Add(Team("Brazil"));
    var r := service.StartGame("Brazil", "England", "g1", 0);
    assert r == Failure(EntityNotFound(TeamByName("England")));
  }

  method FinishGameRemovesGame() {
    var service := NewService();
    var game := MockedGame("m", 0, 0);
    service.gameRepository.Add(game);
    var r := service.FinishGame(Some(game));
    assert r.Success?;
    assert service.gameRepository.boardGames == [];
  }

  method FinishGameErrors() {
    var service := NewService();
    var r := service.FinishGame(None);
    assert r == Failure(ArgumentNull("game"));

    var game := MockedGame("m", 0, 0);
    r := service.FinishGame(Some(game));
    assert r == Failure(NoneGamesInBoard);

    var foreign := Game("f", Team("Mexico"), Team("Spain"), 0, 0, 0);
    service.gameRepository.Add(game);
    r := service.FinishGame(Some(foreign));
    assert r == Failure(EntityNotFound(GameOnBoard));
    assert service.gameRepository.boardGames == [game];
  }

  method UpdateScoreStoresScores() {
    var service := NewService();
    var game := MockedGame("m", 0, 0);
    service.gameRepository.Add(game);
    var r := service.UpdateScore(Some(game), 1, 0);
    assert r.Success?;
    assert service.gameRepository.boardGames[0].homeScore == 1;
    assert service.gameRepository.boardGames[0].awayScore == 0;
  }

  method UpdateScoreErrors() {
    var service := NewService();
    var r := service.UpdateScore(None, 0, 1);
    assert r == Failure(ArgumentNull("game"));

    var game := MockedGame("m", 1, 2);
    service.gameRepository.Add(game);
    r := service.UpdateScore(Some(game), -1, 0);
    assert r == Failure(InvalidScore(Negative));
    r := service.UpdateScore(Some(game), 0, -1);
    assert r == Failure(InvalidScore(Negative));
    r := service.UpdateScore(Some(game), 0, 2);
    assert r == Failure(InvalidScore(BelowCurrent(Home, 0, 1)));
    r := service.UpdateScore(Some(game), 1, 1);
    assert r == Failure(InvalidScore(BelowCurrent(Away, 1, 2)));

    var foreign := Game("f", Team("Mexico"), Team("Spain"), 0, 0, 0);
    r := service.UpdateScore(Some(foreign), 1, 0);
    assert r == Failure(EntityNotFound(GameOnBoard));
    assert service.gameRepository.boardGames == [game];
  }

  /** Ranking one game, two games and three games whose keys are ordered
      first, third, second, one insertion at a time. */
  lemma RankOne(z: Game)
    ensures RankForSummary([z]) == [z]
  {
    assert [z][1..] == [];
  }

  lemma RankTwo(y: Game, z: Game)
    requires Outranks(z, y)
    ensures RankForSummary([y, z]) == [z, y]
  {
    RankOne(z);
    assert [y, z][1..] == [z];
    assert Insert(y, [z]) == [z, y] by {
      assert [z][1..] == [];
      assert Insert(y, []) == [y];
    }
  }

  lemma RankThree(x: Game, y: Game, z: Game)
    requires Outranks(x, z) && Outranks(z, y)
    ensures RankForSummary([x, y, z]) == [x, z, y]
  {
    RankTwo(y, z);
    assert [x, y, z][1..] == [y, z];
    assert !Outranks(z, x);
    assert Insert(x, [z, y]) == [x, z, y];
  }

  /** What the summary contract leaves for such a board: one order only. */
  lemma SummaryOfThree(board: seq<Game>, summary: seq<Game>)
    requires |board| == 3 && Outranks(board[0], board[2]) && Outranks(board[2], board[1])
    requires multiset(summary) == multiset(board) && Ranked(summary)
    requires forall key :: TiesWith(summary, key) == TiesWith(board, key)
    ensures |summary| == 3 && summary[0] == board[0] && summary[1] == board[2] && summary[2] == board[1]
  {
    assert board == [board[0], board[1], board[2]];
    SummaryIsDetermined(board, summary);
    RankThree(board[0], board[1], board[2]);
  }

  /** The ids stand for the test's fresh `Guid`s. */
  method SummaryRanksByTotal(brazilId: string, spainId: string, germanyId: string) {
    var service := NewService();
    var brazil := Game(brazilId, Team("Brazil"), Team("England"), 1, 2, 1);
    var spain := Game(spainId, Team("Spain"), Team("Mexico"), 0, 0, 2);
    var germany := Game(germanyId, Team("Germany"), Team("Italy"), 2, 0, 3);
    service.gameRepository.Add(brazil);
    service.gameRepository.Add(spain);
    service.gameRepository.Add(germany);
    var board := service.gameRepository.boardGames;
    assert board == [brazil, spain, germany];
    var r := service.GetBoardGamesSummary();
    assert r.Success?;
    var summary := r.value;
    SummaryOfThree(board, summary);
    assert summary[0].homeTeam.name == "Brazil";
    assert summary[|summary| - 1].awayTeam.name == "Mexico";
  }

  method SummaryOfEmptyBoardFails() {
    var service := NewService();
    var r := service.GetBoardGamesSummary();
    assert r == Failure(NoneGamesInBoard);
  }
}
