# Football World Cup score board, modelled in Dafny

This project models the domain core of a live football score board. It has
four parts:

- **Game record.** A `Game` holds an id, a home and an away team, two scores
  and a creation time. Its total score is derived from the two scores.
- **Game repository.** The board is an in-memory list of live games. `Add`
  and `Remove` change it in place, and `UpdateScore` overwrites one game's
  scores. Its queries are first-match searches.
- **Team repository.** The team directory is an append-only list, searched
  by exact name.
- **Score board service.** This is the rule layer. It starts a game, finishes
  it, updates its score and produces a ranked summary. Each operation runs an
  ordered chain of checks, and each check has its own error kind. A failed
  check leaves the board as it was.

Module layout, one module per file:

| file | module | models |
|---|---|---|
| `wrappers.dfy` | `Wrappers` | `Option` (a `null` reference) and `Result` (a thrown exception) |
| `game.dfy` | `Domain` | `Team`, `Game` and `TotalOverallScore` |
| `search.dfy` | `Search` | first-match search (`FirstOrDefault`) as an index |
| `game_repository.dfy` | `Games` | `GameRepository` (a class with a `seq` field), board spec functions, the `WellFormed` board invariant |
| `team_repository.dfy` | `Teams` | `TeamRepository` (a class with a `seq` field) |
| `ranking.dfy` | `Ranking` | the summary order: a stable sort by total score, then creation time, both descending |
| `score_board_service.dfy` | `ScoreBoard` | the `Error` datatype and the `ScoreBoardService` class |
| `scenarios.dfy` | `Scenarios` | the repository's unit tests, replayed as client methods and proved from the contracts above |

The two repositories are classes. Their list is a `seq` field, and their
methods reassign it under `modifies this`. The searches that scan the list
(`ExistsByTeam`, `IndexById`, `GetByName`) are methods with `while` loops.
Each is proved against a recursive specification function (`FindById`,
`FindByName`, `Playing`). The service holds the two repositories as `const`
fields, like the C# `readonly` fields. Its state-changing methods declare
`modifies gameRepository`. Each one states its full chain of checks in order,
and the exact new board in terms of the old one. The summary only reads the
board, so it is a function. Its contract states three things: the result is
a permutation of the board, it is ranked, and tied games keep their board
order. `Ranking.SummaryIsDetermined` proves that these three properties allow
exactly one result.

`Games.WellFormed` is the invariant the service's rules keep:

- no score is negative;
- ids are unique;
- no team plays in two live games.

Each service operation ensures `WellFormed(old board) ==> WellFormed(new board)`.
`UpdateScore` also ensures that no stored score goes down.

## Model

| member | source | states |
|---|---|---|
| `Domain.Game.TotalOverallScore` | FWCSB/FootballWorldCupScoreBoard.Domain/Models/Game.cs:11-17 | the total is the home score plus the away score; when both scores are non-negative, the total is non-negative and at least each side's score |
| `Search.FirstIndex` | FWCSB/FootballWorldCupScoreBoard.Persistence/Repositories/GameRepository.cs:16 | `FirstOrDefault`: the index found satisfies the predicate and no earlier element does; none is found exactly when no element satisfies it |
| `Games.FindById` | FWCSB/FootballWorldCupScoreBoard.Persistence/Repositories/GameRepository.cs:16 | the position of the first game with the id, or none exactly when no game has it |
| `Games.RemoveFirst` | FWCSB/FootballWorldCupScoreBoard.Persistence/Repositories/GameRepository.cs:20 | `List.Remove`: a game not on the board leaves it unchanged; otherwise exactly one occurrence goes, so the length drops by one and the multiset loses one copy |
| `Games.RemoveFirstAt` | FWCSB/FootballWorldCupScoreBoard.Persistence/Repositories/GameRepository.cs:20 | removing the first occurrence of the element at k deletes exactly position k and keeps the rest in order |
| `Games.AddKeepsWellFormed` | FWCSB/FootballWorldCupScoreBoard.Application/Services/ScoreBoardService.cs:40-57 | appending a game with a fresh id, non-negative scores and teams that are not playing keeps the board invariant |
| `Games.RemoveKeepsWellFormed` | FWCSB/FootballWorldCupScoreBoard.Application/Services/ScoreBoardService.cs:82-86 | deleting one game keeps the board invariant |
| `Games.RescoreKeepsWellFormed` | FWCSB/FootballWorldCupScoreBoard.Application/Services/ScoreBoardService.cs:107-131 | overwriting one game's scores with non-negative values keeps the board invariant |
| `Games.GameRepository.constructor` | FWCSB/FootballWorldCupScoreBoard.Persistence/Repositories/GameRepository.cs:8 | a new repository starts with an empty board |
| `Games.GameRepository.GetAll` | FWCSB/FootballWorldCupScoreBoard.Persistence/Repositories/GameRepository.cs:10 | returns the board itself, in insertion order |
| `Games.GameRepository.Any` | FWCSB/FootballWorldCupScoreBoard.Persistence/Repositories/GameRepository.cs:12 | true exactly when the board is non-empty |
| `Games.GameRepository.ExistsByTeam` | FWCSB/FootballWorldCupScoreBoard.Persistence/Repositories/GameRepository.cs:14 | true exactly when some game has the name as its home or away team |
| `Games.GameRepository.IndexById` | FWCSB/FootballWorldCupScoreBoard.Persistence/Repositories/GameRepository.cs:16 | the front-to-back scan finds the first game with the id |
| `Games.GameRepository.GetById` | FWCSB/FootballWorldCupScoreBoard.Persistence/Repositories/GameRepository.cs:16 | none exactly when no game has the id; otherwise the first such game |
| `Games.GameRepository.Add` | FWCSB/FootballWorldCupScoreBoard.Persistence/Repositories/GameRepository.cs:18 | the game is appended; the earlier games are unchanged; neither the id nor the teams are checked |
| `Games.GameRepository.Remove` | FWCSB/FootballWorldCupScoreBoard.Persistence/Repositories/GameRepository.cs:20 | the board becomes `RemoveFirst` of the old board |
| `Games.GameRepository.UpdateScore` | FWCSB/FootballWorldCupScoreBoard.Persistence/Repositories/GameRepository.cs:22-31 | an unknown id returns none and leaves the board unchanged; otherwise only the first matching game gets the two new scores (id, teams and creation time kept, the total now their sum), and that game is returned; no score is validated |
| `Teams.FindByName` | FWCSB/FootballWorldCupScoreBoard.Persistence/Repositories/TeamRepository.cs:12 | the position of the first team with exactly that name, or none exactly when no team has it |
| `Teams.AddThenFind` | FWCSB/FootballWorldCupScoreBoard.Persistence/Repositories/TeamRepository.cs:12-14 | after a team is added, a lookup by its name succeeds |
| `Teams.AddKeepsEarliest` | FWCSB/FootballWorldCupScoreBoard.Persistence/Repositories/TeamRepository.cs:12-14 | duplicate names are tolerated: adding never changes the answer for a name already registered, so the earliest-added team wins |
| `Teams.AddKeepsOtherLookups` | FWCSB/FootballWorldCupScoreBoard.Persistence/Repositories/TeamRepository.cs:12-14 | adding a team does not change lookups of other names |
| `Teams.TeamRepository.constructor` | FWCSB/FootballWorldCupScoreBoard.Persistence/Repositories/TeamRepository.cs:8 | a new directory is empty |
| `Teams.TeamRepository.GetAll` | FWCSB/FootballWorldCupScoreBoard.Persistence/Repositories/TeamRepository.cs:10 | returns all added teams, in insertion order |
| `Teams.TeamRepository.GetByName` | FWCSB/FootballWorldCupScoreBoard.Persistence/Repositories/TeamRepository.cs:12 | none exactly when no team has the name; otherwise the first such team |
| `Teams.TeamRepository.Add` | FWCSB/FootballWorldCupScoreBoard.Persistence/Repositories/TeamRepository.cs:14 | the team is appended; the existing teams are unchanged |
| `Ranking.RankForSummary` | FWCSB/FootballWorldCupScoreBoard.Application/Services/ScoreBoardService.cs:147-150 | the summary order is a permutation of the board, of the same length |
| `Ranking.RankForSummaryRanked` | FWCSB/FootballWorldCupScoreBoard.Application/Services/ScoreBoardService.cs:147-150 | in the summary order, no game comes after a game it outranks (a higher total, or an equal total and a later start) |
| `Ranking.RankForSummaryStable` | FWCSB/FootballWorldCupScoreBoard.Application/Services/ScoreBoardService.cs:147-150 | the sort is stable: for each sort key, the games tied on it keep their board order |
| `Ranking.RankedTiesUnique` | FWCSB/FootballWorldCupScoreBoard.Application/Services/ScoreBoardService.cs:147-150 | two ranked sequences with the same games and the same order inside every tie class are equal |
| `Ranking.SummaryIsDetermined` | FWCSB/FootballWorldCupScoreBoard.Application/Services/ScoreBoardService.cs:147-150 | any ranked, stable permutation of the board is exactly the summary order |
| `ScoreBoard.ScoreBoardService.constructor` | FWCSB/FootballWorldCupScoreBoard.Application/Services/ScoreBoardService.cs:13-17 | the service uses the two repositories it is given |
| `ScoreBoard.ScoreBoardService.CheckIfTeamIsInBoardGame` | FWCSB/FootballWorldCupScoreBoard.Application/Services/ScoreBoardService.cs:157-163 | fails exactly when the team plays in a live game, and the error names that team |
| `ScoreBoard.ScoreBoardService.StartGame` | FWCSB/FootballWorldCupScoreBoard.Application/Services/ScoreBoardService.cs:27-60 | checks in order: empty home name, empty away name, unknown home team, unknown away team, home team playing, away team playing; each has its own error. On success it appends exactly one 0-0 game with the resolved teams, the fresh id and the creation time, and returns it. A failure leaves the board unchanged. The board invariant is kept |
| `ScoreBoard.ScoreBoardService.FinishGame` | FWCSB/FootballWorldCupScoreBoard.Application/Services/ScoreBoardService.cs:69-87 | checks in order: absent game (`ArgumentNull`), empty board (`NoneGamesInBoard`, even for a game never on it), id not on the board (`EntityNotFound`). It succeeds exactly when the id is on the board, and then deletes exactly the first game with that id, with the rest in order. A failure leaves the board unchanged. The board invariant is kept |
| `ScoreBoard.ScoreBoardService.UpdateScore` | FWCSB/FootballWorldCupScoreBoard.Application/Services/ScoreBoardService.cs:99-132 | checks in order: absent game, negative home score, negative away score (all before any lookup), unknown id, home score below the stored one, away score below the stored one. Each error carries its values. On success only the matching game gets both new scores, and it is returned. Every stored score is kept or increased, with ids, teams and creation times unchanged. The board invariant is kept |
| `ScoreBoard.ScoreBoardService.GetBoardGamesSummary` | FWCSB/FootballWorldCupScoreBoard.Application/Services/ScoreBoardService.cs:139-151 | fails with `NoneGamesInBoard` exactly when the board is empty. Otherwise it returns a permutation of the board, ranked by total score and then creation time (both descending), with full ties in board order. The board is only read |

## Left out

- The console client and its table rendering are I/O and presentation.
- The interface files only declare members. One of them declares
  `UpdateScore` as `void`; the model follows the implementation, which
  returns the updated game.
- The team record's own file is not part of this model. A team is modelled
  only by the name that the core reads.
- Exception message texts are not modelled. Each `Error` constructor carries
  the values its message would show: the parameter name, the looked-up name,
  the team, or the attempted and current scores. The away-side decrease
  message (ScoreBoardService.cs:126) says "Home Team". `BelowCurrent` instead
  records the side whose check failed, which there is `Away`.
- `ScoreBoard.ScoreBoardService.StartGame`: `Guid.NewGuid()` becomes the
  parameter `id`, which must not be on the board. `DateTime.UtcNow` becomes
  the natural-number parameter `now`. A null team name is treated like an
  empty one, since `string.IsNullOrEmpty` rejects both alike.
- `Domain.Game.TotalOverallScore`: does not model 32-bit `int` wrap-around.
  Scores and totals are unbounded integers, so a total above 2147483647 is not
  wrapped to a negative value as it would be in C#.
- C# reference aliasing is not modelled. Games are values, and the service
  finds the stored game by id. In the C# code, the caller's `Game` object
  also sees in-place score updates. `GetAll` returns the live list, which a
  caller could mutate. `List.Remove` compares references; the model compares
  values. For `FinishGame` the two agree. The game removed is the first with
  the id, and no earlier element can equal it, because that element would
  have the same id.
- `Games.WellFormed` holds only while every change goes through the service.
  Both repositories are public, and the unit tests add games to the board
  directly. So the service's contracts state preservation as an implication
  and do not require the invariant.
- The system's design description says a game's two teams are distinct and
  that the board has no guaranteed order. The code checks neither. It lets a
  team play itself, and its `GetAll` returns games in insertion order. The
  model follows the code.
