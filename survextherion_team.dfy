/**
 * Team lines of Survex and Therion trip metadata, `team "Name" role ...`,
 * read into a team map: members in the order they were first met (the
 * importer's LinkedHashMap from name to role list), each role at most once
 * per member.
 */
module SurvexTherionTeam {
  import opened Wrappers
  import opened Text
  import opened SurveyModel

  // ---- quoted values ----------------------------------------------------------

  /**
   * extractQuotedValue as written: the text after the prefix, trimmed, with
   * the surrounding quote marks taken off. A value that is one lone quote
   * mark both starts and ends with a quote, and substring(1, 0) throws.
   */
  function QuotedValueAsWritten(line: string, prefix: string): (r: Result<string>)
    requires |prefix| <= |line|
    ensures r.Err? <==> Trim(line[|prefix|..]) == "\""
  {
    var rest := Trim(line[|prefix|..]);
    if StartsWith(rest, "\"") && EndsWith(rest, "\"") then
      if |rest| < 2 then Err("begin 1, end 0, length 1") else Ok(rest[1..|rest| - 1])
    else Ok(rest)
  }

  /** `explo-team "` (or `instrument inst "`) makes the metadata reader throw. */
  lemma LoneQuoteThrows()
    ensures QuotedValueAsWritten("explo-team \"", "explo-team ").Err?
  {
    assert "explo-team \""[11..] == "\"";
    assert Trim("\"") == "\"";
  }

  /**
   * extractQuotedValue as intended: a lone quote mark is an empty quoted
   * value. Everywhere the code as written returns, it returns the same.
   */
  function QuotedValue(line: string, prefix: string): (r: string)
    requires |prefix| <= |line|
    ensures QuotedValueAsWritten(line, prefix).Ok? ==> r == QuotedValueAsWritten(line, prefix).value
    ensures |r| <= |line| - |prefix|
  {
    var rest := Trim(line[|prefix|..]);
    if |rest| >= 2 && rest[0] == '"' && rest[|rest| - 1] == '"' then rest[1..|rest| - 1]
    else if rest == "\"" then ""
    else rest
  }

  /** A value written in quotes after the prefix, with any blanks between, is read back as it was written. */
  lemma QuotedValueOfQuoted(prefix: string, pad: string, value: string)
    requires forall k :: 0 <= k < |pad| ==> IsBlank(pad[k])
    ensures QuotedValue(prefix + pad + "\"" + value + "\"", prefix) == value
  {
    var line := prefix + pad + "\"" + value + "\"";
    var quoted := "\"" + value + "\"";
    assert line[|prefix|..] == pad + quoted;
    TrimOfPadded(pad, quoted);
    assert quoted[1..|quoted| - 1] == value;
  }

  /** A lone quote mark reads as the empty value, where the code as written throws. */
  lemma QuotedValueOfLoneQuote(prefix: string)
    ensures QuotedValueAsWritten(prefix + "\"", prefix).Err?
    ensures QuotedValue(prefix + "\"", prefix) == ""
  {
    assert (prefix + "\"")[|prefix|..] == "\"";
    assert Trim("\"") == "\"";
  }

  // ---- roles ------------------------------------------------------------------

  /** parseRole: the role a word names, ignoring letter case; none for any other word. */
  function ParseRole(word: string): (r: Option<Role>)
    ensures r == Some(Book) <==> EqualsIgnoreCase(word, "notes")
    ensures r == Some(Instruments) <==> EqualsIgnoreCase(word, "instruments")
    ensures r == Some(Exploration) <==> EqualsIgnoreCase(word, "explorer")
    ensures r == Some(Dog) <==> EqualsIgnoreCase(word, "dog") || EqualsIgnoreCase(word, "assistant")
  {
    var w := ToLower(word);
    LowerIsIgnoringCase(word, "notes");
    LowerIsIgnoringCase(word, "instruments");
    LowerIsIgnoringCase(word, "explorer");
    LowerIsIgnoringCase(word, "dog");
    LowerIsIgnoringCase(word, "assistant");
    if w == "notes" then Some(Book)
    else if w == "instruments" then Some(Instruments)
    else if w == "explorer" then Some(Exploration)
    else if w == "dog" || w == "assistant" then Some(Dog)
    else None
  }

  /** For a word in lower case, comparing the lower-cased text is comparing without regard to case. */
  lemma LowerIsIgnoringCase(word: string, lower: string)
    requires forall k :: 0 <= k < |lower| ==> 'a' <= lower[k] <= 'z'
    ensures ToLower(word) == lower <==> EqualsIgnoreCase(word, lower)
  {
    if EqualsIgnoreCase(word, lower) {
      assert forall k :: 0 <= k < |lower| ==> LowerChar(lower[k]) == lower[k];
      assert ToLower(word) == lower;
    }
  }

  // ---- the team map -------------------------------------------------------------

  /** Where the member called name stands in the map's order. */
  function MemberIndex(team: seq<TeamEntry>, name: string): (r: Option<nat>)
    ensures r.Some? ==> r.value < |team| && team[r.value].name == name
    ensures r.Some? ==> forall k :: 0 <= k < r.value ==> team[k].name != name
    ensures r.None? ==> forall k :: 0 <= k < |team| ==> team[k].name != name
  {
    if team == [] then None
    else if team[0].name == name then Some(0)
    else match MemberIndex(team[1..], name)
      case Some(k) => Some(k + 1)
      case None => None
  }

  /** teamMap.get(name), with a missing member holding no role. */
  function RolesOf(team: seq<TeamEntry>, name: string): seq<Role>
  {
    match MemberIndex(team, name)
    case Some(k) => team[k].roles
    case None => []
  }

  predicate NoRepeats(roles: seq<Role>)
  {
    forall i, j :: 0 <= i < j < |roles| ==> roles[i] != roles[j]
  }

  /** Names are keys of the map; roles are never added twice. */
  predicate WellFormed(team: seq<TeamEntry>)
  {
    (forall i, j :: 0 <= i < j < |team| ==> team[i].name != team[j].name) &&
    (forall k :: 0 <= k < |team| ==> NoRepeats(team[k].roles))
  }

  /** The same members in the same order. */
  predicate SameMembers(a: seq<TeamEntry>, b: seq<TeamEntry>)
  {
    |a| == |b| && forall k :: 0 <= k < |a| ==> a[k].name == b[k].name
  }

  lemma {:induction false} SameMembersSameIndex(a: seq<TeamEntry>, b: seq<TeamEntry>, name: string)
    requires SameMembers(a, b)
    ensures MemberIndex(a, name) == MemberIndex(b, name)
  {
    if a != [] {
      assert SameMembers(a[1..], b[1..]) by {
        forall k | 0 <= k < |a| - 1 ensures a[1..][k].name == b[1..][k].name {
          assert a[1..][k] == a[k + 1] && b[1..][k] == b[k + 1];
        }
      }
      SameMembersSameIndex(a[1..], b[1..], name);
    }
  }

  /** teamMap.get(name), put in as a new empty list at the end when missing. */
  function WithMember(team: seq<TeamEntry>, name: string): (r: seq<TeamEntry>)
    ensures MemberIndex(r, name).Some?
    ensures MemberIndex(team, name).Some? ==> r == team
    ensures MemberIndex(team, name).None? ==> r == team + [TeamEntry(name, [])]
    ensures RolesOf(r, name) == RolesOf(team, name)
    ensures forall other :: other != name ==> RolesOf(r, other) == RolesOf(team, other)
    ensures WellFormed(team) ==> WellFormed(r)
  {
    if MemberIndex(team, name).Some? then team
    else
      var r := team + [TeamEntry(name, [])];
      assert r[|team|].name == name;
      MemberIndexOfAppended(team, TeamEntry(name, []));
      r
  }

  /** A member appended at the end is found there by its own name and does not hide any earlier member. */
  lemma {:induction false} MemberIndexOfAppended(team: seq<TeamEntry>, e: TeamEntry)
    requires MemberIndex(team, e.name).None?
    ensures MemberIndex(team + [e], e.name) == Some(|team|)
    ensures forall other :: other != e.name ==> MemberIndex(team + [e], other) == MemberIndex(team, other)
  {
    if team != [] {
      assert (team + [e])[1..] == team[1..] + [e];
      MemberIndexOfAppended(team[1..], e);
    }
  }

  /** roles.add(role) on the member called name, unless roles.contains(role). */
  function WithRole(team: seq<TeamEntry>, name: string, role: Role): (r: seq<TeamEntry>)
    requires MemberIndex(team, name).Some?
    ensures SameMembers(r, team)
    ensures role in RolesOf(r, name)
    ensures RolesOf(r, name) == if role in RolesOf(team, name) then RolesOf(team, name) else RolesOf(team, name) + [role]
    ensures forall other :: other != name ==> RolesOf(r, other) == RolesOf(team, other)
    ensures WellFormed(team) ==> WellFormed(r)
  {
    var k := MemberIndex(team, name).value;
    if role in team[k].roles then team
    else
      var r := team[k := TeamEntry(name, team[k].roles + [role])];
      SameMembersSameIndex(r, team, name);
      forall other | other != name ensures RolesOf(r, other) == RolesOf(team, other) {
        SameMembersSameIndex(r, team, other);
      }
      r
  }

  /** The roles named by the words, added in order to the member called name. */
  function WithRoleWords(team: seq<TeamEntry>, name: string, words: seq<string>): (r: seq<TeamEntry>)
    requires MemberIndex(team, name).Some?
    ensures SameMembers(r, team)
    ensures MemberIndex(r, name).Some?
    decreases |words|
  {
    if words == [] then team
    else
      var t := WithRoleWords(team, name, words[..|words| - 1]);
      SameMembersSameIndex(t, team, name);
      match ParseRole(words[|words| - 1])
      case Some(role) => WithRole(t, name, role)
      case None => t
  }

  /** The name between the quotes and the trimmed role words after them, when the line quotes a name. */
  function TeamLineParts(line: string): Option<(string, string)>
    requires |line| >= 5
  {
    var after := Trim(line[5..]);
    if after != [] && after[0] == '"' then
      match IndexOfFrom(after, '"', 1)
      case Some(q) => Some((after[1..q], Trim(after[q + 1..])))
      case None => None
    else None
  }

  /** parseTeamLine: a quoted, non-empty name gets the roles its words name, in order, each once. */
  function TeamLine(line: string, team: seq<TeamEntry>): (r: seq<TeamEntry>)
    requires |line| >= 5
  {
    match TeamLineParts(line)
    case None => team
    case Some((name, roles)) =>
      if name == "" then team
      else WithRoleWords(WithMember(team, name), name, if roles == "" then [] else SplitWs(roles))
  }

  // ---- what a team line does to the map ----------------------------------------------

  /** Adding role words to a member keeps the roles it had, in front. */
  lemma {:induction false} WithRoleWordsKeeps(team: seq<TeamEntry>, name: string, words: seq<string>)
    requires MemberIndex(team, name).Some?
    ensures RolesOf(team, name) <= RolesOf(WithRoleWords(team, name, words), name)
    decreases |words|
  {
    if words != [] {
      WithRoleWordsKeeps(team, name, words[..|words| - 1]);
    }
  }

  /** Every role the member holds after the words was held before or is named by one of them. */
  lemma {:induction false} WithRoleWordsSources(team: seq<TeamEntry>, name: string, words: seq<string>)
    requires MemberIndex(team, name).Some?
    ensures forall role :: role in RolesOf(WithRoleWords(team, name, words), name) ==>
      role in RolesOf(team, name) || exists k :: 0 <= k < |words| && ParseRole(words[k]) == Some(role)
    decreases |words|
  {
    if words != [] {
      var init := words[..|words| - 1];
      WithRoleWordsSources(team, name, init);
      forall role | role in RolesOf(WithRoleWords(team, name, words), name) && role !in RolesOf(team, name)
        ensures exists k :: 0 <= k < |words| && ParseRole(words[k]) == Some(role)
      {
        if role in RolesOf(WithRoleWords(team, name, init), name) {
          var k :| 0 <= k < |init| && ParseRole(init[k]) == Some(role);
          assert words[k] == init[k];
        } else {
          assert ParseRole(words[|words| - 1]) == Some(role);
        }
      }
    }
  }

  /** Every role a word names is held by the member afterwards. */
  lemma {:induction false} WithRoleWordsHolds(team: seq<TeamEntry>, name: string, words: seq<string>)
    requires MemberIndex(team, name).Some?
    ensures forall k :: 0 <= k < |words| && ParseRole(words[k]).Some? ==>
      ParseRole(words[k]).value in RolesOf(WithRoleWords(team, name, words), name)
    decreases |words|
  {
    hide *;
    if words != [] {
      var last := |words| - 1;
      var init := words[..last];
      var t := WithRoleWords(team, name, init);
      WithRoleWordsHolds(team, name, init);
      WithRoleWordsLast(team, name, words);
      var before, after := RolesOf(t, name), RolesOf(WithRoleWords(team, name, words), name);
      forall k | 0 <= k < |words| && ParseRole(words[k]).Some?
        ensures ParseRole(words[k]).value in after
      {
        if k < last {
          assert init[k] == words[k];
          assert ParseRole(words[k]).value in before;
        }
      }
    }
  }

  /** The last word keeps the roles held before it and adds the role it names. */
  lemma WithRoleWordsLast(team: seq<TeamEntry>, name: string, words: seq<string>)
    requires MemberIndex(team, name).Some? && words != []
    ensures var t := WithRoleWords(team, name, words[..|words| - 1]);
      var after := RolesOf(WithRoleWords(team, name, words), name);
      RolesOf(t, name) <= after &&
      (ParseRole(words[|words| - 1]).Some? ==> ParseRole(words[|words| - 1]).value in after)
  {
    var last := |words| - 1;
    var t := WithRoleWords(team, name, words[..last]);
    WithRoleWordsUnfold(team, name, words);
    hide *;
    AddParsedKeeps(t, name, ParseRole(words[last]));
  }

  lemma WithRoleWordsUnfold(team: seq<TeamEntry>, name: string, words: seq<string>)
    requires MemberIndex(team, name).Some? && words != []
    ensures var t := WithRoleWords(team, name, words[..|words| - 1]);
      MemberIndex(t, name).Some? &&
      WithRoleWords(team, name, words) ==
        match ParseRole(words[|words| - 1])
        case Some(role) => WithRole(t, name, role)
        case None => t
  {
    hide ParseRole, WithRole;
  }

  /** Adding a parsed role, if any, keeps the roles held and holds the new one. */
  lemma AddParsedKeeps(t: seq<TeamEntry>, name: string, p: Option<Role>)
    requires MemberIndex(t, name).Some?
    ensures var r := match p case Some(role) => WithRole(t, name, role) case None => t;
      RolesOf(t, name) <= RolesOf(r, name) && (p.Some? ==> p.value in RolesOf(r, name))
  {
  }

  /** Adding role words to one member changes no other member and keeps the map well formed. */
  lemma {:induction false} WithRoleWordsOthers(team: seq<TeamEntry>, name: string, words: seq<string>)
    requires MemberIndex(team, name).Some?
    ensures forall other :: other != name ==> RolesOf(WithRoleWords(team, name, words), other) == RolesOf(team, other)
    ensures WellFormed(team) ==> WellFormed(WithRoleWords(team, name, words))
    decreases |words|
  {
    if words != [] {
      WithRoleWordsOthers(team, name, words[..|words| - 1]);
    }
  }

  /**
   * A team line with a quoted name keeps the map well formed and the
   * member's earlier roles in front (so repeated lines for one name merge),
   * adds every role its words name, and touches no other member.
   */
  lemma TeamLineMerges(line: string, team: seq<TeamEntry>, name: string, roles: string)
    requires |line| >= 5 && WellFormed(team)
    requires TeamLineParts(line) == Some((name, roles)) && name != ""
    ensures WellFormed(TeamLine(line, team))
    ensures MemberIndex(TeamLine(line, team), name).Some?
    ensures RolesOf(team, name) <= RolesOf(TeamLine(line, team), name)
    ensures var words := if roles == "" then [] else SplitWs(roles);
      forall k :: 0 <= k < |words| && ParseRole(words[k]).Some? ==> ParseRole(words[k]).value in RolesOf(TeamLine(line, team), name)
    ensures forall other :: other != name ==> RolesOf(TeamLine(line, team), other) == RolesOf(team, other)
  {
    var words := if roles == "" then [] else SplitWs(roles);
    WithRoleWordsKeeps(WithMember(team, name), name, words);
    WithRoleWordsHolds(WithMember(team, name), name, words);
    WithRoleWordsOthers(WithMember(team, name), name, words);
  }

  /** A line that quotes no name, or an empty one, leaves the map as it was. */
  lemma TeamLineWithoutName(line: string, team: seq<TeamEntry>)
    requires |line| >= 5
    requires TeamLineParts(line).None? || TeamLineParts(line).value.0 == ""
    ensures TeamLine(line, team) == team
  {
  }

  // ---- the map object -------------------------------------------------------------

  /** The Map<String, List<Trip.Role>> (a LinkedHashMap) the metadata reader fills. */
  class TeamMap {
    var entries: seq<TeamEntry>

    constructor ()
      ensures entries == []
    {
      entries := [];
    }

    /** teamMap.get(name), with a new empty role list put in for a new name. */
    method GetOrCreate(name: string)
      modifies this
      ensures entries == WithMember(old(entries), name)
    {
      if MemberIndex(entries, name).None? {
        entries := entries + [TeamEntry(name, [])];
      }
    }

    /** roles.add(role) unless roles.contains(role). */
    method AddRole(name: string, role: Role)
      requires MemberIndex(entries, name).Some?
      modifies this
      ensures entries == WithRole(old(entries), name, role)
    {
      var k := MemberIndex(entries, name).value;
      if role !in entries[k].roles {
        entries := entries[k := TeamEntry(name, entries[k].roles + [role])];
      }
    }
  }

  /** parseTeamLine. */
  method ParseTeamLine(line: string, teamMap: TeamMap)
    requires |line| >= 5
    modifies teamMap
    ensures teamMap.entries == TeamLine(line, old(teamMap.entries))
  {
    hide WithRoleWords, WithMember, SplitWs, Trim;
    var after := Trim(line[5..]);
    var name := "";
    var rolesText := "";
    if after != [] && after[0] == '"' {
      var close := IndexOfFrom(after, '"', 1);
      if close.Some? {
        name := after[1..close.value];
        rolesText := Trim(after[close.value + 1..]);
      }
    }
    if name == "" {
      return;
    }
    assert TeamLineParts(line) == Some((name, rolesText));
    teamMap.GetOrCreate(name);
    var words := if rolesText == "" then [] else SplitWs(rolesText);
    AddRoleWords(teamMap, name, words);
  }

  /** The loop of parseTeamLine over the role words. */
  method AddRoleWords(teamMap: TeamMap, name: string, words: seq<string>)
    requires MemberIndex(teamMap.entries, name).Some?
    modifies teamMap
    ensures teamMap.entries == WithRoleWords(old(teamMap.entries), name, words)
  {
    hide WithRole, ParseRole, SameMembers;
    ghost var start := teamMap.entries;
    var i := 0;
    while i < |words|
      invariant 0 <= i <= |words|
      invariant teamMap.entries == WithRoleWords(start, name, words[..i])
    {
      WithRoleWordsStep(start, name, words, i);
      var role := ParseRole(words[i]);
      if role.Some? {
        teamMap.AddRole(name, role.value);
      }
      i := i + 1;
    }
    assert words[..|words|] == words;
  }

  lemma WithRoleWordsStep(team: seq<TeamEntry>, name: string, words: seq<string>, i: nat)
    requires MemberIndex(team, name).Some? && i < |words|
    ensures var t := WithRoleWords(team, name, words[..i]);
      MemberIndex(t, name).Some? &&
      WithRoleWords(team, name, words[..i + 1]) ==
        match ParseRole(words[i])
        case Some(role) => WithRole(t, name, role)
        case None => t
  {
    assert words[..i + 1][..i] == words[..i];
  }
}
