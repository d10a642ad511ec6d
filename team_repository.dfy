/** The team directory: an append-only list searched by exact name. */
module Teams {
  import opened Wrappers
  import opened Domain
  import opened Search

  /** Index of the first team whose name is exactly `name`. */
  function FindByName(teams: seq<Team>, name: string): (r: Option<nat>)
    ensures r.Some? ==> r.value < |teams| && teams[r.value].name == name
    ensures r.Some? ==> forall j :: 0 <= j < r.value ==> teams[j].name != name
    ensures r.None? <==> forall j :: 0 <= j < |teams| ==> teams[j].name != name
  {
    FirstIndex(teams, (t: Team) => t.name == name)
  }

  /** After appending `team`, a lookup by its name succeeds. */
  lemma AddThenFind(teams: seq<Team>, team: Team)
    ensures FindByName(teams + [team], team.name).Some?
  {
    assert (teams + [team])[|teams|].name == team.name;
  }

  /** Appending never changes the answer for a name that was already
      registered: with duplicate names the earliest-added team wins. */
  lemma AddKeepsEarliest(teams: seq<Team>, team: Team, name: string)
    requires FindByName(teams, name).Some?
    ensures FindByName(teams + [team], name) == FindByName(teams, name)
  {
    var k := FindByName(teams, name).value;
    assert (teams + [team])[k] == teams[k];
  }

  /** Appending a team under a new name leaves every other lookup as it was. */
  lemma AddKeepsOtherLookups(teams: seq<Team>, team: Team, name: string)
    requires team.name != name
    ensures FindByName(teams + [team], name) == FindByName(teams, name)
  {
    match FindByName(teams, name)
    case Some(k) =>
      assert (teams + [team])[k] == teams[k];
    case None =>
      assert forall j :: 0 <= j < |teams| + 1 ==> (teams + [team])[j].name != name by {
        forall j | 0 <= j < |teams| + 1 ensures (teams + [team])[j].name != name {
          if j < |teams| { assert (teams + [team])[j] == teams[j]; }
        }
      }
  }

  class TeamRepository {
    /** The registered teams, in the order they were added. */
    var teams: seq<Team>

    constructor ()
      ensures teams == []
    {
      teams := [];
    }

    /** All registered teams, in insertion order. */
    function GetAll(): (all: seq<Team>)
      reads this
      ensures all == teams
    {
      teams
    }

    /** The first team named exactly `name`, or none. */
    method GetByName(name: string) returns (team: Option<Team>)
      ensures team.None? <==> forall j :: 0 <= j < |teams| ==> teams[j].name != name
      ensures team.Some? ==> team.value == teams[FindByName(teams, name).value]
    {
      var i := 0;
      while i < |teams|
        invariant 0 <= i <= |teams|
        invariant forall j :: 0 <= j < i ==> teams[j].name != name
      {
        if teams[i].name == name {
          return Some(teams[i]);
        }
        i := i + 1;
      }
      return None;
    }

    /** Registers `team`; duplicate names are accepted. */
    method Add(team: Team)
      modifies this
      ensures teams == old(teams) + [team]
    {
      teams := teams + [team];
    }
  }
}
