/** The domain records: a team, identified by its name, and a live game. */
module Domain {

  /** A participant, known to the core only by its exact (case-sensitive) name. */
  datatype Team = Team(name: string)

  /** One game on the board. `createdAt` is the creation timestamp, supplied
      by whoever builds the game; the scores are plain integers because the
      repository stores whatever it is given. */
  datatype Game = Game(
    id: string,
    homeTeam: Team,
    awayTeam: Team,
    homeScore: int,
    awayScore: int,
    createdAt: nat)
  {
    /** The combined score, derived from the two stored scores on every read. */
    function TotalOverallScore(): (total: int)
      ensures total - homeScore == awayScore
      ensures homeScore >= 0 && awayScore >= 0 ==>
                0 <= total && homeScore <= total && awayScore <= total
    {
      homeScore + awayScore
    }

    /** True when `teamName` is the home or the away team of this game. */
    predicate Plays(teamName: string) {
      homeTeam.name == teamName || awayTeam.name == teamName
    }
  }
}
