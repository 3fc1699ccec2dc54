/**
 * The two text formats, Survex and Therion, and the one piece of team
 * parsing that differs between them: Therion's `explo-team "Name"` lines,
 * which give a member the exploration role.
 *
 * The spellings each format uses elsewhere (command marker, comment
 * character, splay station name and so on) are a `Syntax` value given to
 * the readers and writers.
 */
module SurveyFormats {
  import opened Text
  import opened SurveyModel
  import opened SurvexTherionTeam

  /**
   * What the readers and writers ask of a format: the marker before a
   * command when written ("*" for Survex), the command character a reader
   * expects, the comment character, the keyword of the exploration date,
   * the name written for a splay's missing station, and the line that opens
   * a passage-comment block.
   */
  datatype Syntax = Syntax(
    commandMarker: string,
    commandChar: string,
    commentChar: char,
    explorationDateKeyword: string,
    splayStationName: string,
    dataPassagePrefix: string)

  const ExploTeamPrefix: string := "explo-team "

  datatype SurveyFormat = Survex | Therion
  {
    /**
     * parseExploTeamLine: whether the line was consumed, and the team map
     * after it. Survex consumes nothing. Therion consumes exactly the lines
     * starting "explo-team "; a non-empty quoted name then holds the
     * exploration role, added once after the roles it had.
     */
    function ExploTeamLine(effective: string, team: seq<TeamEntry>): (r: (bool, seq<TeamEntry>))
      ensures r.0 <==> this == Therion && StartsWith(effective, ExploTeamPrefix)
      ensures !r.0 ==> r.1 == team
      ensures r.0 ==> var name := QuotedValue(effective, ExploTeamPrefix);
        (name == "" ==> r.1 == team) &&
        (name != "" ==> MemberIndex(r.1, name).Some? && Exploration in RolesOf(r.1, name) &&
                        RolesOf(r.1, name) == RolesOf(team, name) + (if Exploration in RolesOf(team, name) then [] else [Exploration]))
      ensures forall other :: r.0 && other != QuotedValue(effective, ExploTeamPrefix) ==> RolesOf(r.1, other) == RolesOf(team, other)
      ensures WellFormed(team) ==> WellFormed(r.1)
    {
      match this
      case Survex => (false, team)
      case Therion =>
        if !StartsWith(effective, ExploTeamPrefix) then (false, team)
        else
          var name := QuotedValue(effective, ExploTeamPrefix);
          if name == "" then (true, team)
          else (true, WithRole(WithMember(team, name), name, Exploration))
    }

    /** parseExploTeamLine, on the team map object. */
    method ParseExploTeamLine(effective: string, teamMap: TeamMap) returns (consumed: bool)
      modifies teamMap
      ensures (consumed, teamMap.entries) == ExploTeamLine(effective, old(teamMap.entries))
    {
      if this == Survex || !StartsWith(effective, ExploTeamPrefix) {
        return false;
      }
      var name := QuotedValue(effective, ExploTeamPrefix);
      if name != "" {
        teamMap.GetOrCreate(name);
        teamMap.AddRole(name, Exploration);
      }
      return true;
    }
  }

  /** An explo-team line read twice leaves the map as reading it once. */
  lemma ExploTeamLineIdempotent(format: SurveyFormat, effective: string, team: seq<TeamEntry>)
    ensures var once := format.ExploTeamLine(effective, team);
      format.ExploTeamLine(effective, once.1) == once
  {
    var once := format.ExploTeamLine(effective, team);
    if once.0 {
      var name := QuotedValue(effective, ExploTeamPrefix);
      if name != "" {
        var again := WithMember(once.1, name);
        assert again == once.1;
        var k := MemberIndex(once.1, name).value;
        assert Exploration in once.1[k].roles;
      }
    }
  }

  /** `explo-team "Name"` as Therion writes it gives Name the exploration role. */
  lemma ExploTeamLineOfQuotedName(team: seq<TeamEntry>, name: string)
    requires name != ""
    ensures var r := Therion.ExploTeamLine(ExploTeamPrefix + "\"" + name + "\"", team);
      r.0 && Exploration in RolesOf(r.1, name)
  {
    var line := ExploTeamPrefix + "\"" + name + "\"";
    assert line == ExploTeamPrefix + "" + "\"" + name + "\"";
    QuotedValueOfQuoted(ExploTeamPrefix, "", name);
    assert StartsWith(line, ExploTeamPrefix);
  }
}
