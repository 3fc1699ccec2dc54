/**
 * The Survex exporter's own part: the `*team` lines of a trip, one per
 * member that holds a role, and the `*begin`/`*end` block around the whole
 * file. The rest of the file's body (metadata, station comments,
 * centreline, extend commands) is written by SurvexTherionUtil.
 *
 * Every role is written as a word the importer's parseRole reads back as
 * that role, so a team line read by the importer's parseTeamLine gives the
 * member back with the same roles in the same order.
 */
module SurvexExporter {
  import opened Wrappers
  import opened Text
  import opened SurveyModel
  import opened SurvexTherionTeam

  /** The comment character of Survex files. */
  const CommentChar: char := ';'

  // ---- roles --------------------------------------------------------------------

  /** getRoleDescription: the word Survex writes for a role. */
  function RoleDescription(role: Role): string
  {
    match role
    case Book => "notes"
    case Instruments => "instruments"
    case Exploration => "explorer"
    case Dog => "assistant"
  }

  /** The importer reads every word written for a role as that same role. */
  lemma RoleDescriptionRead(role: Role)
    ensures ParseRole(RoleDescription(role)) == Some(role)
  {
    var w := RoleDescription(role);
    assert EqualsIgnoreCase(w, w);
    match role
    case Book =>
    case Instruments =>
    case Exploration =>
    case Dog =>
      assert !EqualsIgnoreCase(w, "notes") by { assert |w| != |"notes"|; }
      assert !EqualsIgnoreCase(w, "instruments") by { assert |w| != |"instruments"|; }
      assert !EqualsIgnoreCase(w, "explorer") by { assert |w| != |"explorer"|; }
  }

  /** Different roles are written as different words. */
  lemma RoleDescriptionInjective(a: Role, b: Role)
    ensures RoleDescription(a) == RoleDescription(b) <==> a == b
  {
    RoleDescriptionRead(a);
    RoleDescriptionRead(b);
  }

  /** A role's word is one word: not empty, no blanks, no quote mark, no line feed. */
  lemma RoleDescriptionIsWord(role: Role)
    ensures IsWord(RoleDescription(role))
    ensures '"' !in RoleDescription(role) && '\n' !in RoleDescription(role)
  {
  }

  function RoleWords(roles: seq<Role>): (r: seq<string>)
    ensures |r| == |roles|
    ensures forall k :: 0 <= k < |r| ==> r[k] == RoleDescription(roles[k])
  {
    seq(|roles|, k requires 0 <= k < |roles| => RoleDescription(roles[k]))
  }

  /** What the inner loop of formatTeamLines appends: each role's word after a space. */
  function RoleText(roles: seq<Role>): string
  {
    if roles == [] then "" else RoleText(roles[..|roles| - 1]) + " " + RoleDescription(roles[|roles| - 1])
  }

  /** The roles' text is a space and then the roles' words joined by spaces. */
  lemma {:induction false} RoleTextJoined(roles: seq<Role>)
    requires roles != []
    ensures RoleText(roles) == " " + Join(RoleWords(roles), " ")
  {
    hide RoleDescription;
    var init := roles[..|roles| - 1];
    var last := RoleDescription(roles[|roles| - 1]);
    assert RoleText(roles) == RoleText(init) + " " + last;
    assert RoleWords(roles) == RoleWords(init) + [last];
    JoinAppend(RoleWords(init), last, " ");
    if init != [] {
      RoleTextJoined(init);
      assert RoleWords(init) != [];
    } else {
      assert RoleWords(init) == [];
    }
  }

  // ---- team lines -------------------------------------------------------------------

  /** The command a member's line holds, once the marker `*` is taken off. */
  function TeamCommand(e: TeamEntry): string
  {
    "team " + Quoted(e.name) + RoleText(e.roles)
  }

  function Quoted(name: string): string
  {
    "\"" + name + "\""
  }

  /** The line formatTeamLines writes for a member that holds a role. */
  function TeamLineText(e: TeamEntry): string
  {
    "*" + TeamCommand(e) + "\n"
  }

  /** The members that hold at least one role, in team order. */
  function Listed(team: seq<TeamEntry>): (r: seq<TeamEntry>)
    ensures forall e :: e in r <==> e in team && e.roles != []
    ensures |r| <= |team|
  {
    if team == [] then []
    else
      var last := team[|team| - 1];
      Listed(team[..|team| - 1]) + (if last.roles == [] then [] else [last])
  }

  /** The text formatTeamLines builds: one line per member that holds a role. */
  function TeamLinesText(team: seq<TeamEntry>): string
  {
    if team == [] then ""
    else
      var last := team[|team| - 1];
      TeamLinesText(team[..|team| - 1]) + (if last.roles == [] then "" else TeamLineText(last))
  }

  /** formatTeamLines. */
  method FormatTeamLines(team: seq<TeamEntry>) returns (text: string)
    ensures text == TeamLinesText(team)
  {
    hide RoleDescription;
    text := "";
    for i := 0 to |team|
      invariant text == TeamLinesText(team[..i])
    {
      hide TeamLineText;
      var entry := team[i];
      assert team[..i + 1][..i] == team[..i];
      assert TeamLinesText(team[..i + 1]) == text + (if entry.roles == [] then "" else TeamLineText(entry));
      if entry.roles == [] {
        continue;
      }
      var line := FormatTeamLine(entry);
      text := text + line;
    }
    assert team[..|team|] == team;
  }

  /** One turn of formatTeamLines' loop, for a member that holds a role. */
  method FormatTeamLine(entry: TeamEntry) returns (line: string)
    ensures line == TeamLineText(entry)
  {
    hide RoleDescription;
    line := "*" + "team " + "\"" + entry.name + "\"";
    ghost var head := line;
    for j := 0 to |entry.roles|
      invariant line == head + RoleText(entry.roles[..j])
    {
      assert entry.roles[..j + 1][..j] == entry.roles[..j];
      assert RoleText(entry.roles[..j + 1]) == RoleText(entry.roles[..j]) + " " + RoleDescription(entry.roles[j]);
      line := line + " " + RoleDescription(entry.roles[j]);
    }
    assert entry.roles[..|entry.roles|] == entry.roles;
    line := line + "\n";
  }

  /** The lines of the team text, without their line feeds. */
  function WrittenLines(es: seq<TeamEntry>): (r: seq<string>)
    ensures |r| == |es|
    ensures forall k :: 0 <= k < |r| ==> r[k] == "*" + TeamCommand(es[k])
  {
    seq(|es|, k requires 0 <= k < |es| => "*" + TeamCommand(es[k]))
  }

  /**
   * The team text is one line for each member that holds a role, in team
   * order, each line the marker and then the member's team command.
   */
  lemma {:induction false} TeamLinesAreListed(team: seq<TeamEntry>)
    ensures TeamLinesText(team) == Lines(WrittenLines(Listed(team)))
  {
    hide RoleDescription, RoleText, TeamCommand, Lines;
    if team == [] {
      LinesEmpty(WrittenLines(Listed(team)));
    } else {
      var init := team[..|team| - 1];
      var last := team[|team| - 1];
      TeamLinesAreListed(init);
      assert TeamLinesText(team) == TeamLinesText(init) + (if last.roles == [] then "" else TeamLineText(last));
      if last.roles != [] {
        assert Listed(team) == Listed(init) + [last];
        WrittenLinesAppend(Listed(init), last);
        LinesAppend(WrittenLines(Listed(init)), "*" + TeamCommand(last));
      } else {
        assert Listed(team) == Listed(init);
      }
    }
  }

  lemma WrittenLinesAppend(es: seq<TeamEntry>, e: TeamEntry)
    ensures WrittenLines(es + [e]) == WrittenLines(es) + ["*" + TeamCommand(e)]
  {
    hide TeamCommand;
    assert forall k :: 0 <= k < |es| ==> (es + [e])[k] == es[k];
  }

  /** A name the team lines can carry: not empty, no quote mark, on one line. */
  predicate Writable(name: string)
  {
    name != "" && '"' !in name && '\n' !in name
  }

  /** A member's line is one line when its name is. */
  lemma CommandOneLine(e: TeamEntry)
    requires '\n' !in e.name
    ensures '\n' !in "*" + TeamCommand(e)
  {
    hide RoleDescription;
    if e.roles != [] {
      var words := RoleWords(e.roles);
      forall i | 0 <= i < |words| ensures '\n' !in words[i] {
        RoleDescriptionIsWord(e.roles[i]);
      }
      JoinWithout(words, " ", '\n');
      RoleTextJoined(e.roles);
    }
  }

  /** Cut at its line feeds, the team text gives each listed member's line, then the empty rest. */
  lemma TeamLinesSplit(team: seq<TeamEntry>)
    requires forall k :: 0 <= k < |team| ==> '\n' !in team[k].name
    ensures SplitAll(TeamLinesText(team), '\n') == WrittenLines(Listed(team)) + [""]
  {
    hide TeamCommand, TeamLinesText;
    var ls := WrittenLines(Listed(team));
    forall k | 0 <= k < |ls|
      ensures '\n' !in ls[k]
    {
      var e := Listed(team)[k];
      assert e in team;
      CommandOneLine(e);
    }
    TeamLinesAreListed(team);
    SplitAllLines(ls, "");
    assert Lines(ls) + "" == Lines(ls);
    assert IndexOf("", '\n') == None;
  }

  // ---- reading the team lines back --------------------------------------------------

  /** Role words added to a new member, in order, give it those roles when none repeats. */
  lemma {:induction false} RoleWordsAdded(team: seq<TeamEntry>, name: string, roles: seq<Role>)
    requires MemberIndex(team, name).None? && NoRepeats(roles)
    ensures WithRoleWords(WithMember(team, name), name, RoleWords(roles)) == team + [TeamEntry(name, roles)]
    decreases |roles|
  {
    hide RoleDescription, ParseRole, WithRole, WithRoleWords;
    var start := WithMember(team, name);
    assert start == team + [TeamEntry(name, [])];
    if roles == [] {
      assert RoleWords(roles) == [];
      WithRoleWordsLast(start, name, []);
    } else {
      var init := roles[..|roles| - 1];
      var role := roles[|roles| - 1];
      InitThenLast(roles);
      var words := RoleWords(roles);
      assert words[..|words| - 1] == RoleWords(init);
      assert NoRepeats(init);
      RoleWordsAdded(team, name, init);
      RoleDescriptionRead(role);
      WithRoleWordsLast(start, name, words);
      WithRoleNew(team, name, init, role);
    }
  }

  lemma InitThenLast<T>(s: seq<T>)
    requires s != []
    ensures s[..|s| - 1] + [s[|s| - 1]] == s
  {
  }

  /** WithRoleWords unfolded once: the last word's role, if any, added after the others'. */
  lemma WithRoleWordsLast(team: seq<TeamEntry>, name: string, words: seq<string>)
    requires MemberIndex(team, name).Some?
    ensures words == [] ==> WithRoleWords(team, name, words) == team
    ensures words != [] ==>
      var t := WithRoleWords(team, name, words[..|words| - 1]);
      MemberIndex(t, name).Some? &&
      WithRoleWords(team, name, words) ==
        match ParseRole(words[|words| - 1])
        case Some(role) => WithRole(t, name, role)
        case None => t
  {
    if words != [] {
      SameMembersSameIndex(WithRoleWords(team, name, words[..|words| - 1]), team, name);
    }
  }

  /** A role the last member does not hold yet is added at the end of its roles. */
  lemma WithRoleNew(team: seq<TeamEntry>, name: string, roles: seq<Role>, role: Role)
    requires MemberIndex(team, name).None? && role !in roles
    ensures MemberIndex(team + [TeamEntry(name, roles)], name).Some?
    ensures WithRole(team + [TeamEntry(name, roles)], name, role) == team + [TeamEntry(name, roles + [role])]
  {
    MemberIndexOfAppended(team, TeamEntry(name, roles));
    var t := team + [TeamEntry(name, roles)];
    assert t[|team| := TeamEntry(name, roles + [role])] == team + [TeamEntry(name, roles + [role])];
  }

  /** The roles' words, joined by spaces: trimmed, and split at white space into the words again. */
  lemma RoleWordsJoined(roles: seq<Role>) returns (j: string)
    requires roles != []
    ensures j == Join(RoleWords(roles), " ") && RoleText(roles) == " " + j
    ensures j != "" && IsTrimmed(j) && SplitWs(j) == RoleWords(roles)
  {
    hide RoleDescription, RoleText, Join;
    var words := RoleWords(roles);
    forall i | 0 <= i < |words| ensures IsWord(words[i]) {
      RoleDescriptionIsWord(roles[i]);
    }
    j := Join(words, " ");
    RoleTextJoined(roles);
    WordsTrimmed(words);
    JoinEnds(words, " ");
    TokensOfJoinedWords(words, ' ');
    assert [' '] == " ";
    assert !IsSpace(j[0]) by { if IsSpace(j[0]) { SpaceIsBlank(j[0]); } }
  }

  /** The text after a quoted name that holds no quote mark: the name is cut out at the closing quote. */
  lemma QuotedNameFound(name: string, rest: string)
    requires '"' !in name
    ensures var after := Quoted(name) + rest;
      IndexOfFrom(after, '"', 1) == Some(|name| + 1) &&
      after[1..|name| + 1] == name && after[|name| + 2..] == rest
  {
    var after := Quoted(name) + rest;
    var q := |name| + 1;
    assert after[q] == '"';
    forall k | 1 <= k < q ensures after[k] != '"' {
      assert after[k] == name[k - 1];
    }
  }

  /** The name and the role words parseTeamLine finds in a member's team command. */
  lemma TeamCommandParts(e: TeamEntry) returns (j: string)
    requires Writable(e.name) && e.roles != []
    ensures |TeamCommand(e)| >= 5
    ensures j == Join(RoleWords(e.roles), " ") && SplitWs(j) == RoleWords(e.roles) && j != ""
    ensures TeamLineParts(TeamCommand(e)) == Some((e.name, j))
  {
    hide RoleText, Join, SplitWs, Trim;
    j := RoleWordsJoined(e.roles);
    var line := TeamCommand(e);
    var after := Quoted(e.name) + RoleText(e.roles);
    assert line == "team " + after;
    assert line[5..] == after;
    assert IsTrimmed(after) by {
      assert after[0] == '"';
      assert after[|after| - 1] == j[|j| - 1];
    }
    TrimOfTrimmed(after);
    QuotedNameFound(e.name, RoleText(e.roles));
    TrimOfPadded(" ", j);
  }

  /**
   * parseTeamLine on a member's team command puts the member at the end of
   * the map with the roles it was written with, in order.
   */
  lemma TeamCommandRead(e: TeamEntry, team: seq<TeamEntry>)
    requires Writable(e.name) && e.roles != [] && NoRepeats(e.roles)
    requires MemberIndex(team, e.name).None?
    ensures |TeamCommand(e)| >= 5 && TeamLine(TeamCommand(e), team) == team + [e]
  {
    hide TeamCommand, TeamLineParts, WithRoleWords, WithMember, SplitWs, Join;
    var j := TeamCommandParts(e);
    RoleWordsAdded(team, e.name, e.roles);
  }

  /** The importer's metadata loop over team commands: parseTeamLine on each in turn. */
  function ReadTeamCommands(commands: seq<string>, team: seq<TeamEntry>): seq<TeamEntry>
    decreases |commands|
  {
    if commands == [] then team
    else ReadTeamCommands(commands[1..], if |commands[0]| >= 5 then TeamLine(commands[0], team) else team)
  }

  /** Distinct names, none of them already in the map. */
  predicate FreshNames(es: seq<TeamEntry>, team: seq<TeamEntry>)
  {
    (forall i, j :: 0 <= i < j < |es| ==> es[i].name != es[j].name) &&
    (forall k :: 0 <= k < |es| ==> MemberIndex(team, es[k].name).None?)
  }

  /** Members that the team lines carry faithfully. */
  predicate Carried(es: seq<TeamEntry>)
  {
    forall k :: 0 <= k < |es| ==> Writable(es[k].name) && es[k].roles != [] && NoRepeats(es[k].roles)
  }

  /** The team commands of the members, in order. */
  function Commands(es: seq<TeamEntry>): (r: seq<string>)
    ensures |r| == |es|
    ensures forall k :: 0 <= k < |r| ==> r[k] == TeamCommand(es[k])
  {
    seq(|es|, k requires 0 <= k < |es| => TeamCommand(es[k]))
  }

  /** Past the first member, the others' names are fresh in the map that now holds the first. */
  lemma FreshAfterFirst(es: seq<TeamEntry>, team: seq<TeamEntry>)
    requires es != [] && FreshNames(es, team)
    ensures FreshNames(es[1..], team + [es[0]])
  {
    MemberIndexOfAppended(team, es[0]);
    forall k | 0 <= k < |es| - 1
      ensures MemberIndex(team + [es[0]], es[1..][k].name).None?
    {
      assert es[1..][k] == es[k + 1];
    }
  }

  /** Read one after the other, the team commands of members put them at the end of the map, in order. */
  lemma {:induction false} TeamCommandsRead(es: seq<TeamEntry>, team: seq<TeamEntry>)
    requires Carried(es) && FreshNames(es, team)
    ensures ReadTeamCommands(Commands(es), team) == team + es
    decreases |es|
  {
    hide TeamCommand, TeamLine, Carried, FreshNames, MemberIndex, Writable, NoRepeats;
    if es == [] {
      assert Commands(es) == [];
      assert team + es == team;
    } else {
      TeamCommandsFirst(es, team);
      var next := team + [es[0]];
      TeamCommandsRead(es[1..], next);
      assert next + es[1..] == team + es;
    }
  }

  /** Reading the first command adds the first member and leaves the rest to read. */
  lemma TeamCommandsFirst(es: seq<TeamEntry>, team: seq<TeamEntry>)
    requires es != [] && Carried(es) && FreshNames(es, team)
    ensures Carried(es[1..]) && FreshNames(es[1..], team + [es[0]])
    ensures ReadTeamCommands(Commands(es), team) == ReadTeamCommands(Commands(es[1..]), team + [es[0]])
  {
    hide TeamCommand, TeamLine;
    var cs := Commands(es);
    TeamCommandRead(es[0], team);
    var next := team + [es[0]];
    assert ReadTeamCommands(cs, team) == ReadTeamCommands(cs[1..], next);
    assert cs[1..] == Commands(es[1..]);
    FreshAfterFirst(es, team);
    assert Carried(es[1..]) by {
      forall k | 0 <= k < |es| - 1 ensures es[1..][k] == es[k + 1] { }
    }
  }

  /** The members listed from a well-formed team have distinct names and no repeated roles. */
  lemma {:induction false} ListedWellFormed(team: seq<TeamEntry>)
    requires WellFormed(team)
    ensures WellFormed(Listed(team))
  {
    if team != [] {
      var init := team[..|team| - 1];
      var last := team[|team| - 1];
      assert WellFormed(init);
      ListedWellFormed(init);
      if last.roles != [] {
        var r := Listed(team);
        assert r == Listed(init) + [last];
        forall k | 0 <= k < |r| - 1
          ensures r[k].name != last.name
        {
          assert r[k] in init;
        }
      }
    }
  }

  lemma MemberIndexEmpty(name: string)
    ensures MemberIndex([], name).None?
  {
  }

  /**
   * The team lines of a well-formed team, with names the lines can carry,
   * read back by the importer (marker taken off each line) into an empty
   * map: exactly the members that hold a role, in team order, each with
   * its roles in order.
   */
  lemma TeamLinesRoundTrip(team: seq<TeamEntry>)
    requires WellFormed(team)
    requires forall k :: 0 <= k < |team| ==> Writable(team[k].name)
    ensures ReadTeamCommands(Commands(Listed(team)), []) == Listed(team)
  {
    hide Commands, ReadTeamCommands, Listed, Writable, MemberIndex;
    var es := Listed(team);
    ListedWellFormed(team);
    assert Carried(es) by {
      forall k | 0 <= k < |es|
        ensures Writable(es[k].name) && es[k].roles != [] && NoRepeats(es[k].roles)
      {
        assert es[k] in team;
        var i :| 0 <= i < |team| && team[i] == es[k];
      }
    }
    assert FreshNames(es, []) by {
      forall k | 0 <= k < |es| ensures MemberIndex([], es[k].name).None? {
        MemberIndexEmpty(es[k].name);
      }
    }
    TeamCommandsRead(es, []);
    EmptyThen(es);
  }

  lemma EmptyThen<T>(s: seq<T>)
    ensures [] + s == s
  {
  }

  // ---- the file -------------------------------------------------------------------------

  /** The team lines of the survey's trip; none without a trip. */
  function TripTeamLines(trip: Option<Trip>): string
  {
    match trip
    case Some(t) => TeamLinesText(t.team)
    case None => ""
  }

  /**
   * What getContent puts between `*begin` and `*end`: the creation comment,
   * an empty line, the metadata, the station comments, the centreline, and
   * after a line feed the extend commands.
   */
  function Body(creation: string, metadata: string, comments: string, centreline: string, extensions: string): string
  {
    creation + "\n\n" + metadata + "\n" + comments + centreline + "\n" + extensions
  }

  /** getContent's framing: `*begin` and the survey's name, the body, `*end` and the name. */
  function Framed(name: string, body: string): string
  {
    "*begin " + name + "\n" + body + "*end " + name + "\n"
  }

  /** getContent, with the pieces SurvexTherionUtil writes given as text. */
  method GetContent(name: string, creation: string, metadata: string, comments: string, centreline: string, extensions: string)
    returns (text: string)
    ensures text == Framed(name, Body(creation, metadata, comments, centreline, extensions))
  {
    text := "*begin " + name + "\n";
    text := text + creation + "\n\n";
    text := text + metadata + "\n";
    text := text + comments;
    text := text + centreline;
    text := text + "\n";
    text := text + extensions;
    text := text + "*end " + name + "\n";
  }

  predicate EndsLine(s: string)
  {
    s == "" || s[|s| - 1] == '\n'
  }

  /**
   * When the extend commands are whole lines, the file opens the survey's
   * block on its first line and closes it, with the same name, on its last.
   */
  lemma FramedLines(name: string, creation: string, metadata: string, comments: string, centreline: string, extensions: string)
    requires '\n' !in name && EndsLine(extensions)
    ensures var lines := SplitAll(Framed(name, Body(creation, metadata, comments, centreline, extensions)), '\n');
      |lines| >= 3 && lines[0] == "*begin " + name &&
      lines[|lines| - 2] == "*end " + name && lines[|lines| - 1] == ""
  {
    var body := Body(creation, metadata, comments, centreline, extensions);
    assert EndsLine(body);
    var text := Framed(name, body);
    var open := "*begin " + name;
    var close := "*end " + name;
    assert '\n' !in open && '\n' !in close;
    assert text == open + ['\n'] + (body + close + "\n");
    SplitAllAt(open, '\n', body + close + "\n");
    SplitAllEnd(body, close);
  }

  /** After whole lines, a last line of its own: the last two pieces are that line and the empty rest. */
  lemma {:induction false} SplitAllEnd(body: string, close: string)
    requires '\n' !in close && EndsLine(body)
    ensures var lines := SplitAll(body + close + "\n", '\n');
      |lines| >= 2 && lines[|lines| - 2] == close && lines[|lines| - 1] == ""
    decreases |body|
  {
    var s := body + close + "\n";
    match IndexOf(body, '\n')
    case None =>
      assert body == "";
      assert s == close + ['\n'] + "";
      SplitAllAt(close, '\n', "");
      assert IndexOf("", '\n') == None;
    case Some(k) =>
      var pre := body[..k];
      var post := body[k + 1..];
      assert body == pre + ['\n'] + post;
      assert '\n' !in pre;
      assert EndsLine(post);
      assert s == pre + ['\n'] + (post + close + "\n");
      SplitAllAt(pre, '\n', post + close + "\n");
      SplitAllEnd(post, close);
  }
}
