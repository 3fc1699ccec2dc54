/**
 * The Therion exporter's team lines. A member's `team` line names every
 * role it holds except exploration; the exploration role is written on an
 * `explo-team` line of its own, which Therion's reader (parseExploTeamLine)
 * turns back into that role. A member whose only role is exploration has
 * no `team` line at all.
 *
 * Therion writes the same word as Survex for every role except
 * exploration, so a member's team line is the Survex team command of the
 * member less its exploration role, and reads back as that member.
 */
module ThExporter {
  import opened Wrappers
  import opened Text
  import opened SurveyModel
  import opened SurvexTherionTeam
  import opened SurveyFormats
  import SurvexExporter

  // ---- roles --------------------------------------------------------------------

  /** getRoleDescription: exploration is never asked for and falls to the default. */
  function RoleDescription(role: Role): string
  {
    match role
    case Book => "notes"
    case Instruments => "instruments"
    case Dog => "assistant"
    case Exploration => "assistant"
  }

  /** On every role but exploration Therion writes the word Survex writes, which reads back as the role. */
  lemma RoleDescriptionRead(role: Role)
    requires role != Exploration
    ensures RoleDescription(role) == SurvexExporter.RoleDescription(role)
    ensures ParseRole(RoleDescription(role)) == Some(role)
  {
    SurvexExporter.RoleDescriptionRead(role);
  }

  /** hasExplorerRole. */
  method HasExplorerRole(entry: TeamEntry) returns (r: bool)
    ensures r <==> Exploration in entry.roles
  {
    for i := 0 to |entry.roles|
      invariant Exploration !in entry.roles[..i]
    {
      if entry.roles[i] == Exploration {
        return true;
      }
      assert entry.roles[..i + 1] == entry.roles[..i] + [entry.roles[i]];
    }
    assert entry.roles[..|entry.roles|] == entry.roles;
    return false;
  }

  /** hasOnlyExplorerRole. */
  predicate HasOnlyExplorerRole(entry: TeamEntry)
  {
    |entry.roles| == 1 && Exploration in entry.roles
  }

  /** A member's only role is exploration exactly when its roles are that one role. */
  lemma OnlyExplorerExactly(entry: TeamEntry)
    ensures HasOnlyExplorerRole(entry) <==> entry.roles == [Exploration]
  {
    if HasOnlyExplorerRole(entry) {
      assert entry.roles == [entry.roles[0]];
    }
  }

  /** The roles but exploration, in order. */
  function NonExplorer(roles: seq<Role>): (r: seq<Role>)
    ensures Exploration !in r
    ensures forall role :: role in r <==> role in roles && role != Exploration
  {
    if roles == [] then []
    else NonExplorer(roles[..|roles| - 1]) + (if roles[|roles| - 1] == Exploration then [] else [roles[|roles| - 1]])
  }

  /** What the inner loop of formatTeamLines appends: each role's word but exploration's, after a space. */
  function RoleText(roles: seq<Role>): string
  {
    if roles == [] then ""
    else
      var last := roles[|roles| - 1];
      RoleText(roles[..|roles| - 1]) + (if last == Exploration then "" else " " + RoleDescription(last))
  }

  /** Therion's role text is Survex's of the roles less exploration. */
  lemma {:induction false} RoleTextWithoutExplorer(roles: seq<Role>)
    ensures RoleText(roles) == SurvexExporter.RoleText(NonExplorer(roles))
  {
    hide RoleDescription, SurvexExporter.RoleDescription;
    if roles != [] {
      var init := roles[..|roles| - 1];
      var last := roles[|roles| - 1];
      RoleTextWithoutExplorer(init);
      assert RoleText(roles) == RoleText(init) + (if last == Exploration then "" else " " + RoleDescription(last));
      if last != Exploration {
        var kept := NonExplorer(init) + [last];
        assert NonExplorer(roles) == kept;
        assert kept[..|kept| - 1] == NonExplorer(init);
        RoleDescriptionRead(last);
      } else {
        assert NonExplorer(roles) == NonExplorer(init);
      }
    }
  }

  // ---- team lines -------------------------------------------------------------------

  /** Whether formatTeamLines writes a line for the member. */
  predicate OnTeamLines(e: TeamEntry)
  {
    e.roles != [] && !HasOnlyExplorerRole(e)
  }

  /** The line formatTeamLines writes for a member, without its line feed. */
  function TeamCommand(e: TeamEntry): string
  {
    "team " + SurvexExporter.Quoted(e.name) + RoleText(e.roles)
  }

  /** The members formatTeamLines writes, in team order. */
  function Listed(team: seq<TeamEntry>): (r: seq<TeamEntry>)
    ensures forall e :: e in r <==> e in team && OnTeamLines(e)
  {
    if team == [] then []
    else
      var last := team[|team| - 1];
      Listed(team[..|team| - 1]) + (if OnTeamLines(last) then [last] else [])
  }

  /** The text formatTeamLines builds. */
  function TeamLinesText(team: seq<TeamEntry>): string
  {
    if team == [] then ""
    else
      var last := team[|team| - 1];
      TeamLinesText(team[..|team| - 1]) + (if OnTeamLines(last) then TeamCommand(last) + "\n" else "")
  }

  /** formatTeamLines. */
  method FormatTeamLines(team: seq<TeamEntry>) returns (text: string)
    ensures text == TeamLinesText(team)
  {
    hide RoleDescription, TeamCommand;
    text := "";
    for i := 0 to |team|
      invariant text == TeamLinesText(team[..i])
    {
      var entry := team[i];
      assert team[..i + 1][..i] == team[..i];
      assert TeamLinesText(team[..i + 1]) == text + (if OnTeamLines(entry) then TeamCommand(entry) + "\n" else "");
      if entry.roles == [] {
        continue;
      }
      if HasOnlyExplorerRole(entry) {
        continue;
      }
      var line := FormatTeamLine(entry);
      text := text + line;
    }
    assert team[..|team|] == team;
  }

  /** One turn of formatTeamLines' loop, for a member it writes. */
  method FormatTeamLine(entry: TeamEntry) returns (line: string)
    ensures line == TeamCommand(entry) + "\n"
  {
    hide RoleDescription;
    line := "team " + "\"" + entry.name + "\"";
    ghost var head := line;
    for j := 0 to |entry.roles|
      invariant line == head + RoleText(entry.roles[..j])
    {
      var role := entry.roles[j];
      assert entry.roles[..j + 1][..j] == entry.roles[..j];
      assert RoleText(entry.roles[..j + 1]) == RoleText(entry.roles[..j]) + (if role == Exploration then "" else " " + RoleDescription(role));
      if role != Exploration {
        line := line + " " + RoleDescription(role);
      }
    }
    assert entry.roles[..|entry.roles|] == entry.roles;
    line := line + "\n";
  }

  /** The member as its team line gives it back: the same name, its roles but exploration. */
  function AsWritten(e: TeamEntry): TeamEntry
  {
    TeamEntry(e.name, NonExplorer(e.roles))
  }

  /** A member's team line is the Survex team command of the member less its exploration role. */
  lemma TeamCommandIsSurvex(e: TeamEntry)
    ensures TeamCommand(e) == SurvexExporter.TeamCommand(AsWritten(e))
  {
    RoleTextWithoutExplorer(e.roles);
  }

  /** A member on the team lines holds some role other than exploration. */
  lemma OnTeamLinesHasOther(e: TeamEntry)
    requires OnTeamLines(e) && NoRepeats(e.roles)
    ensures NonExplorer(e.roles) != []
  {
    var r := e.roles;
    if |r| > 1 {
      assert r[0] != r[1];
    } else {
      assert r == [r[0]];
    }
  }

  /** The roles less exploration repeat no role when the roles did not. */
  lemma {:induction false} NonExplorerNoRepeats(roles: seq<Role>)
    requires NoRepeats(roles)
    ensures NoRepeats(NonExplorer(roles))
  {
    if roles != [] {
      var init := roles[..|roles| - 1];
      var last := roles[|roles| - 1];
      assert NoRepeats(init);
      NonExplorerNoRepeats(init);
      if last != Exploration {
        var r := NonExplorer(roles);
        assert r == NonExplorer(init) + [last];
        forall k | 0 <= k < |r| - 1 ensures r[k] != last {
          assert r[k] in init;
        }
      }
    }
  }

  /**
   * parseTeamLine on a member's team line puts the member at the end of the
   * map with its roles but exploration, in order: the exploration role
   * never comes back from a team line.
   */
  lemma TeamCommandRead(e: TeamEntry, team: seq<TeamEntry>)
    requires SurvexExporter.Writable(e.name) && OnTeamLines(e) && NoRepeats(e.roles)
    requires MemberIndex(team, e.name).None?
    ensures |TeamCommand(e)| >= 5 && TeamLine(TeamCommand(e), team) == team + [AsWritten(e)]
    ensures Exploration !in RolesOf(TeamLine(TeamCommand(e), team), e.name)
  {
    hide TeamCommand, SurvexExporter.TeamCommand, TeamLine;
    TeamCommandIsSurvex(e);
    OnTeamLinesHasOther(e);
    NonExplorerNoRepeats(e.roles);
    SurvexExporter.TeamCommandRead(AsWritten(e), team);
    MemberIndexOfAppended(team, AsWritten(e));
  }

  // ---- explo-team lines --------------------------------------------------------------

  /** Whether formatExploTeamLines writes a line for the member. */
  predicate OnExploTeamLines(e: TeamEntry)
  {
    e.roles != [] && Exploration in e.roles
  }

  /** The explo-team line of a member, without its line feed. */
  function ExploCommand(e: TeamEntry): string
  {
    ExploTeamPrefix + SurvexExporter.Quoted(e.name)
  }

  /** The members formatExploTeamLines writes, in team order. */
  function ExploListed(team: seq<TeamEntry>): (r: seq<TeamEntry>)
    ensures forall e :: e in r <==> e in team && OnExploTeamLines(e)
  {
    if team == [] then []
    else
      var last := team[|team| - 1];
      ExploListed(team[..|team| - 1]) + (if OnExploTeamLines(last) then [last] else [])
  }

  /** The text formatExploTeamLines builds. */
  function ExploTeamLinesText(team: seq<TeamEntry>): string
  {
    if team == [] then ""
    else
      var last := team[|team| - 1];
      ExploTeamLinesText(team[..|team| - 1]) + (if OnExploTeamLines(last) then ExploCommand(last) + "\n" else "")
  }

  /** formatExploTeamLines. */
  method FormatExploTeamLines(team: seq<TeamEntry>) returns (text: string)
    ensures text == ExploTeamLinesText(team)
  {
    text := "";
    for i := 0 to |team|
      invariant text == ExploTeamLinesText(team[..i])
    {
      var entry := team[i];
      assert team[..i + 1][..i] == team[..i];
      assert ExploTeamLinesText(team[..i + 1]) == text + (if OnExploTeamLines(entry) then ExploCommand(entry) + "\n" else "");
      var explorer := HasExplorerRole(entry);
      if entry.roles != [] && explorer {
        text := text + "explo-team " + "\"" + entry.name + "\"" + "\n";
      }
    }
    assert team[..|team|] == team;
  }

  /** Therion's reader, given a member's explo-team line, gives the member the exploration role. */
  lemma ExploCommandRead(e: TeamEntry, team: seq<TeamEntry>)
    requires e.name != ""
    ensures var r := Therion.ExploTeamLine(ExploCommand(e), team);
      r.0 && Exploration in RolesOf(r.1, e.name)
  {
    hide SurveyFormat.ExploTeamLine, RolesOf;
    assert ExploCommand(e) == ExploTeamPrefix + "\"" + e.name + "\"";
    ExploTeamLineOfQuotedName(team, e.name);
  }

  // ---- the team, split over the two kinds of line ----------------------------------

  /**
   * Every member that holds a role is written somewhere: on the team lines,
   * the explo-team lines, or both. A member is on both exactly when it
   * holds exploration and some other role.
   */
  lemma EveryMemberWritten(team: seq<TeamEntry>, e: TeamEntry)
    requires e in team && e.roles != []
    ensures e in Listed(team) || e in ExploListed(team)
    ensures e in Listed(team) && e in ExploListed(team) <==> Exploration in e.roles && e.roles != [Exploration]
  {
    OnlyExplorerExactly(e);
  }

  /** A member is on the explo-team lines exactly when it holds the exploration role. */
  lemma ExploListedExactly(team: seq<TeamEntry>, e: TeamEntry)
    requires e in team
    ensures e in ExploListed(team) <==> Exploration in e.roles
  {
  }
}
