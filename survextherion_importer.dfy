/**
 * The line-level readers of the Survex/Therion importer: the comment at the
 * end of a centreline line, the `{from: d a i, ...}` instruction inside it,
 * the commented repeat lines that may follow a leg, and which way a leg was
 * shot.
 *
 * Float.parseFloat is a parameter: a number, or None where Java throws
 * NumberFormatException.
 */
module SurvexTherionImporter {
  import opened Wrappers
  import opened Text
  import opened Legs

  type NumberParser = string -> Option<real>

  // ---- extractCommentFromLine -------------------------------------------

  /**
   * extractCommentFromLine: the trimmed text after the first ';' (Survex),
   * or when there is none after the first '#' (Therion), or "".
   */
  function LineComment(line: string): (r: string)
    ensures IsTrimmed(r)
    ensures ';' !in line && '#' !in line ==> r == ""
  {
    match IndexOf(line, ';')
    case Some(k) => Trim(line[k + 1..])
    case None =>
      match IndexOf(line, '#')
      case Some(k) => Trim(line[k + 1..])
      case None => ""
  }

  /** The comment is what follows the first ';', whatever comes after. */
  lemma LineCommentAfterSemicolon(data: string, rest: string)
    requires ';' !in data
    ensures LineComment(data + ";" + rest) == Trim(rest)
  {
    IndexOfAfter(data, ';', rest);
    assert (data + ";" + rest)[|data| + 1..] == rest;
  }

  /** Without ';' anywhere, the comment is what follows the first '#'. */
  lemma LineCommentAfterHash(data: string, rest: string)
    requires ';' !in data && ';' !in rest && '#' !in data
    ensures LineComment(data + "#" + rest) == Trim(rest)
  {
    var line := data + "#" + rest;
    assert ';' !in line by {
      forall k | 0 <= k < |line| ensures line[k] != ';' {
        if k < |data| { assert line[k] == data[k]; }
        else if k > |data| { assert line[k] == rest[k - |data| - 1]; }
      }
    }
    IndexOfAfter(data, '#', rest);
    assert line[|data| + 1..] == rest;
  }

  /** A comment written after data without ';' and blank padding reads back as written. */
  lemma LineCommentOf(data: string, pad: string, comment: string)
    requires ';' !in data
    requires forall k :: 0 <= k < |pad| ==> IsBlank(pad[k])
    requires IsTrimmed(comment)
    ensures LineComment(data + ";" + pad + comment) == comment
  {
    assert data + ";" + pad + comment == data + ";" + (pad + comment);
    LineCommentAfterSemicolon(data, pad + comment);
    TrimOfPadded(pad, comment);
  }

  // ---- extractCommentInstructions ---------------------------------------

  /** The characters that '.' in a java.util.regex pattern does not match. */
  predicate IsLineTerminator(c: char)
  {
    c == '\n' || c == '\r' || c == '\U{85}' || c == '\U{2028}' || c == '\U{2029}'
  }

  /** The first '}' at or after i that no line terminator comes before. */
  function ClosingBrace(s: string, i: nat): (r: Option<nat>)
    ensures r.Some? ==> i <= r.value < |s| && s[r.value] == '}'
    ensures r.Some? ==> forall k :: i <= k < r.value ==> s[k] != '}' && !IsLineTerminator(s[k])
    decreases |s| - i
  {
    if i >= |s| then None
    else if s[i] == '}' then Some(i)
    else if IsLineTerminator(s[i]) then None
    else ClosingBrace(s, i + 1)
  }

  /** A '{' at p that a '}' closes on the same line: where the regular expression ([{].*?[}]) can match. */
  predicate OpensAt(s: string, p: nat)
  {
    p < |s| && s[p] == '{' && ClosingBrace(s, p + 1).Some?
  }

  /** The first position at or after p where an instruction starts. */
  function InstructionStart(s: string, p: nat): (r: Option<nat>)
    ensures r.Some? ==> p <= r.value && OpensAt(s, r.value)
    ensures r.Some? ==> forall k :: p <= k < r.value ==> !OpensAt(s, k)
    ensures r.None? ==> forall k :: p <= k < |s| ==> !OpensAt(s, k)
    decreases |s| - p
  {
    if p >= |s| then None
    else if OpensAt(s, p) then Some(p)
    else InstructionStart(s, p + 1)
  }

  lemma {:induction false} InstructionStartAt(s: string, p: nat, q: nat)
    requires p <= q && OpensAt(s, q)
    requires forall k :: p <= k < q ==> !OpensAt(s, k)
    ensures InstructionStart(s, p) == Some(q)
    decreases q - p
  {
    if p < q {
      InstructionStartAt(s, p + 1, q);
    }
  }

  /**
   * extractCommentInstructions: the first match of ([{].*?[}]), a '{' and
   * the nearest '}' after it on the same line, or "" when there is none.
   */
  function CommentInstruction(comment: string): (r: string)
    ensures r == [] || (|r| >= 2 && r[0] == '{' && r[|r| - 1] == '}')
    ensures r != [] ==> forall k :: 1 <= k < |r| - 1 ==> r[k] != '}' && !IsLineTerminator(r[k])
    ensures r == [] <==> forall k :: 0 <= k < |comment| ==> !OpensAt(comment, k)
  {
    match InstructionStart(comment, 0)
    case None => ""
    case Some(q) =>
      var e := ClosingBrace(comment, q + 1).value;
      var r := comment[q..e + 1];
      assert forall k :: 1 <= k < |r| - 1 ==> r[k] == comment[q + k];
      r
  }

  lemma {:induction false} ClosingBraceAt(s: string, i: nat, e: nat)
    requires i <= e < |s| && s[e] == '}'
    requires forall k :: i <= k < e ==> s[k] != '}' && !IsLineTerminator(s[k])
    ensures ClosingBrace(s, i) == Some(e)
    decreases e - i
  {
    if i < e {
      ClosingBraceAt(s, i + 1, e);
    }
  }

  /**
   * The first brace pair of a comment is its instruction: text without '{',
   * then "{" + body + "}" with a body on one line and without '}'.
   */
  lemma CommentInstructionOf(pre: string, body: string, rest: string)
    requires '{' !in pre && '}' !in body
    requires forall k :: 0 <= k < |body| ==> !IsLineTerminator(body[k])
    ensures CommentInstruction(pre + "{" + body + "}" + rest) == "{" + body + "}"
  {
    var s := pre + "{" + body + "}" + rest;
    var q := |pre|;
    var e := q + 1 + |body|;
    assert s[q] == '{' && s[e] == '}';
    forall k | q + 1 <= k < e ensures s[k] != '}' && !IsLineTerminator(s[k]) {
      assert s[k] == body[k - q - 1];
    }
    ClosingBraceAt(s, q + 1, e);
    forall k | 0 <= k < q ensures !OpensAt(s, k) {
      assert s[k] == pre[k];
    }
    InstructionStartAt(s, 0, q);
    assert s[q..e + 1] == "{" + body + "}";
  }

  /** A comment without '{' holds no instruction. */
  lemma CommentInstructionWithoutBrace(comment: string)
    requires '{' !in comment
    ensures CommentInstruction(comment) == ""
  {
  }

  /**
   * The station comment once the instruction is struck out: every copy of
   * the instruction removed and the rest trimmed, or the comment as it is
   * when there is no instruction.
   */
  function StrippedComment(comment: string, instruction: string): (r: string)
    ensures instruction == "" ==> r == comment
    ensures instruction != "" ==> IsTrimmed(r)
  {
    if instruction == "" then comment
    else Trim(ReplaceLiteral(comment, instruction, ""))
  }

  /** An instruction in front of the remark leaves the remark as the station comment. */
  lemma StrippedCommentOf(instruction: string, pad: string, remark: string)
    requires instruction != [] && instruction[0] == '{' && '{' !in pad && '{' !in remark
    requires forall k :: 0 <= k < |pad| ==> IsBlank(pad[k])
    requires IsTrimmed(remark)
    ensures StrippedComment(instruction + pad + remark, instruction) == remark
  {
    var s := instruction + pad + remark;
    var after := pad + remark;
    assert s == instruction + after;
    assert '{' !in after by {
      forall k | 0 <= k < |after| ensures after[k] != '{' {
        if k < |pad| { assert after[k] == pad[k]; } else { assert after[k] == remark[k - |pad|]; }
      }
    }
    ReplaceLiteralAbsent(after, instruction, "");
    assert instruction <= s && s[|instruction|..] == after;
    assert ReplaceLiteral(s, instruction, "") == after;
    TrimOfPadded(pad, remark);
  }

  // ---- parse, parseFrom, parseLeg ----------------------------------------

  /** String.replaceFirst on a single literal character: its first occurrence taken out. */
  function WithoutFirst(s: string, c: char): (r: string)
    ensures c !in s ==> r == s
    ensures c in s ==> |r| == |s| - 1
  {
    match IndexOf(s, c)
    case None => s
    case Some(k) => s[..k] + s[k + 1..]
  }

  lemma WithoutFirstOf(pre: string, c: char, post: string)
    requires c !in pre
    ensures WithoutFirst(pre + [c] + post, c) == pre + post
  {
    IndexOfAfter(pre, c, post);
    var s := pre + [c] + post;
    assert s[..|pre|] == pre && s[|pre| + 1..] == post;
  }

  /** String.split(":", 2) for a character c: the text before the first c and the text after it, or the whole text. */
  function SplitOnce(s: string, c: char): (r: seq<string>)
    ensures c !in s ==> r == [s]
    ensures c in s ==> |r| == 2
  {
    match IndexOf(s, c)
    case None => [s]
    case Some(k) => [s[..k], s[k + 1..]]
  }

  lemma SplitOnceOf(pre: string, c: char, post: string)
    requires c !in pre
    ensures SplitOnce(pre + [c] + post, c) == [pre, post]
  {
    IndexOfAfter(pre, c, post);
    var s := pre + [c] + post;
    assert s[..|pre|] == pre && s[|pre| + 1..] == post;
  }

  /** parseLeg: exactly three fields, each a number, read as a splay. */
  function ParseShot(text: string, parse: NumberParser): (r: Result<Leg>)
    ensures r.Ok? ==> !r.value.HasDestination() && !r.value.WasPromoted()
  {
    var fields := SplitWs(Trim(text));
    if |fields| != 3 then Err("Expected 3 fields but received " + NatToString(|fields|))
    else
      var d := parse(fields[0]);
      var a := parse(fields[1]);
      var i := parse(fields[2]);
      if d.None? || a.None? || i.None? then Err("NumberFormatException")
      else Ok(Splay(0, d.value, a.value, i.value))
  }

  /** The legs read so far put in front of what the rest reads, or the rest's failure. */
  function Prepended(legs: seq<Leg>, rest: Result<seq<Leg>>): Result<seq<Leg>>
  {
    match rest
    case Ok(more) => Ok(legs + more)
    case Err(e) => Err(e)
  }

  lemma PrependedNothing(rest: Result<seq<Leg>>)
    ensures Prepended([], rest) == rest
  {
    if rest.Ok? {
      assert [] + rest.value == rest.value;
    }
  }

  lemma PrependedTwice(first: seq<Leg>, second: seq<Leg>, rest: Result<seq<Leg>>)
    ensures Prepended(first, Prepended(second, rest)) == Prepended(first + second, rest)
  {
    if rest.Ok? {
      assert first + (second + rest.value) == first + second + rest.value;
    }
  }

  /** A shot reads exactly when it has three fields and each is a number; the splay carries those numbers. */
  lemma ParseShotReads(text: string, parse: NumberParser)
    ensures var f := SplitWs(Trim(text));
      ParseShot(text, parse).Ok? <==> |f| == 3 && parse(f[0]).Some? && parse(f[1]).Some? && parse(f[2]).Some?
    ensures var f := SplitWs(Trim(text));
      ParseShot(text, parse).Ok? ==> (|f| == 3 &&
        ParseShot(text, parse).value == Splay(0, parse(f[0]).value, parse(f[1]).value, parse(f[2]).value))
  {
  }

  /** Every text read as a shot, in order; the first failure is the failure of the whole. */
  function ParseShots(texts: seq<string>, parse: NumberParser): Result<seq<Leg>>
  {
    if texts == [] then Ok([])
    else Then(ParseShot(texts[0], parse), ParseShots(texts[1..], parse))
  }

  /** One shot read, then the rest: the first failure wins. */
  function Then(first: Result<Leg>, rest: Result<seq<Leg>>): Result<seq<Leg>>
  {
    match first
    case Err(e) => Err(e)
    case Ok(leg) => Prepended([leg], rest)
  }

  /** The pieces read as a whole exactly when each reads, and then give one leg per piece, in order. */
  lemma {:induction false} ParseShotsEach(texts: seq<string>, parse: NumberParser)
    ensures ParseShots(texts, parse).Ok? <==> forall k :: 0 <= k < |texts| ==> ParseShot(texts[k], parse).Ok?
    ensures ParseShots(texts, parse).Ok? ==> (|ParseShots(texts, parse).value| == |texts| &&
      forall k :: 0 <= k < |texts| ==> ParseShots(texts, parse).value[k] == ParseShot(texts[k], parse).value)
  {
    hide ParseShot;
    if texts != [] {
      ParseShotsEach(texts[1..], parse);
      assert forall k :: 1 <= k < |texts| ==> texts[k] == texts[1..][k - 1];
    }
  }

  /** parseFrom: the trimmed text cut at every ',', each piece a shot. */
  function ParseFrom(text: string, parse: NumberParser): Result<seq<Leg>>
  {
    ParseShots(SplitChar(Trim(text), ','), parse)
  }

  /** The tags parse() accepts; both read the shots the same way. */
  predicate IsShotTag(tag: string)
  {
    tag == "from" || tag == "backsight"
  }

  /** The instruction with its first '{' and its first '}' taken out, trimmed. */
  function InstructionBody(instructions: string): string
  {
    Trim(WithoutFirst(WithoutFirst(instructions, '{'), '}'))
  }

  /**
   * parse(instructions): "" reads as no legs; otherwise the first '{' and
   * the first '}' are taken out, the rest trimmed and cut at the first ':'
   * into a tag and the shots. Whatever is read is a list of plain shots.
   */
  function ParseInstruction(instructions: string, parse: NumberParser): (r: Result<seq<Leg>>)
    ensures instructions == "" ==> r == Ok([])
  {
    if instructions == "" then Ok([])
    else ParseTagged(SplitOnce(InstructionBody(instructions), ':'), parse)
  }

  /** The body cut at its first ':' read as a tag and its shots. */
  function ParseTagged(parts: seq<string>, parse: NumberParser): Result<seq<Leg>>
  {
    if |parts| < 2 then Err("Cannot parse instructions")
    else if parts[0] == "from" then ParseFrom(parts[1], parse)
    else if parts[0] == "backsight" then ParseFrom(parts[1], parse)
    else Err("Unknown tag: " + parts[0])
  }

  /** Whatever an instruction reads is a list of plain shots. */
  lemma ParseInstructionIsPlain(instructions: string, parse: NumberParser)
    ensures ParseInstruction(instructions, parse).Ok? ==>
      forall k :: 0 <= k < |ParseInstruction(instructions, parse).value| ==>
        !ParseInstruction(instructions, parse).value[k].HasDestination() &&
        !ParseInstruction(instructions, parse).value[k].WasPromoted()
  {
    hide ParseShot, SplitChar, InstructionBody;
    if instructions != "" {
      var parts := SplitOnce(InstructionBody(instructions), ':');
      if |parts| >= 2 {
        ParseShotsEach(SplitChar(Trim(parts[1]), ','), parse);
      }
    }
  }

  /** An instruction without ':' cannot be read. */
  lemma ParseInstructionWithoutColon(instructions: string, parse: NumberParser)
    requires instructions != "" && ':' !in InstructionBody(instructions)
    ensures ParseInstruction(instructions, parse) == Err("Cannot parse instructions")
  {
  }

  /** parseInlinePromotedLegs: the legs of the instruction, or none when it cannot be read. */
  function InlinePromoted(instruction: string, parse: NumberParser): (r: seq<Leg>)
    ensures ParseInstruction(instruction, parse).Ok? ==> r == ParseInstruction(instruction, parse).value
    ensures ParseInstruction(instruction, parse).Err? ==> r == []
  {
    match ParseInstruction(instruction, parse)
    case Ok(legs) => legs
    case Err(_) => []
  }

  /** A tag and its shots between braces, with nothing that would end the tag early or unbalance the braces. */
  predicate IsInstructionText(tag: string, shots: string)
  {
    tag != "" && !IsBlank(tag[0]) && ':' !in tag && '{' !in tag && '}' !in tag && '}' !in shots &&
    (shots == [] || !IsBlank(shots[|shots| - 1]))
  }

  /**
   * "{tag:shots}" reads its shots when the tag is "from" or "backsight",
   * and is refused with the tag named otherwise.
   */
  lemma ParseInstructionOf(tag: string, shots: string, parse: NumberParser)
    requires IsInstructionText(tag, shots)
    ensures ParseInstruction("{" + tag + ":" + shots + "}", parse) ==
      if IsShotTag(tag) then ParseFrom(shots, parse) else Err("Unknown tag: " + tag)
  {
    hide ParseFrom, InstructionBody, SplitOnce, IsBlank;
    InstructionBodyOf(tag, shots);
    SplitOnceOf(tag, ':', shots);
  }

  /** The braces of "{tag:shots}" come off and leave "tag:shots". */
  lemma InstructionBodyOf(tag: string, shots: string)
    requires IsInstructionText(tag, shots)
    ensures InstructionBody("{" + tag + ":" + shots + "}") == tag + [':'] + shots
  {
    hide WithoutFirst, Trim;
    var inner := tag + ":" + shots;
    assert "{" + tag + ":" + shots + "}" == [] + ['{'] + (inner + "}");
    WithoutFirstOf([], '{', inner + "}");
    assert [] + (inner + "}") == inner + ['}'] + [];
    InstructionNoClose(tag, shots);
    WithoutFirstOf(inner, '}', []);
    assert inner + [] == inner;
    assert inner[0] == tag[0] && !IsBlank(inner[|inner| - 1]);
    TrimOfTrimmed(inner);
  }

  lemma InstructionNoClose(tag: string, shots: string)
    requires IsInstructionText(tag, shots)
    ensures '}' !in tag + ":" + shots
  {
    var inner := tag + ":" + shots;
    forall k | 0 <= k < |inner| ensures inner[k] != '}' {
      if k < |tag| { assert inner[k] == tag[k]; } else if k > |tag| { assert inner[k] == shots[k - |tag| - 1]; }
    }
  }

  lemma ParseShotsAt(texts: seq<string>, parse: NumberParser, i: nat)
    requires i < |texts|
    ensures ParseShots(texts[i..], parse) == Then(ParseShot(texts[i], parse), ParseShots(texts[i + 1..], parse))
  {
    assert texts[i..][0] == texts[i] && texts[i..][1..] == texts[i + 1..];
  }

  /** parseFrom as the source runs it: a loop over the pieces, returning at the first that fails. */
  method ParseFromText(text: string, parse: NumberParser) returns (r: Result<seq<Leg>>)
    ensures r == ParseFrom(text, parse)
  {
    var shotTexts := SplitChar(Trim(text), ',');
    var legs: seq<Leg> := [];
    assert shotTexts[0..] == shotTexts;
    PrependedNothing(ParseShots(shotTexts, parse));
    for i := 0 to |shotTexts|
      invariant ParseShots(shotTexts, parse) == Prepended(legs, ParseShots(shotTexts[i..], parse))
    {
      ParseShotsAt(shotTexts, parse, i);
      var leg := ParseShot(shotTexts[i], parse);
      if leg.Err? {
        return Err(leg.error);
      }
      PrependedTwice(legs, [leg.value], ParseShots(shotTexts[i + 1..], parse));
      legs := legs + [leg.value];
    }
    assert shotTexts[|shotTexts|..] == [];
    assert legs + [] == legs;
    return Ok(legs);
  }

  // ---- parseCommentedNewLinePromotedLegs -------------------------------

  /** The whitespace-separated fields of a comment line, comment character left out. */
  function CommentFields(line: string): seq<string>
    requires Trim(line) != ""
  {
    SplitWs(Trim(Trim(line)[1..]))
  }

  /** A repeat of the leg from -> to: a ';' or '#' comment line of at least five fields, the first two the leg's stations. */
  predicate IsRepeatLine(line: string, from: string, to: string)
  {
    var t := Trim(line);
    t != "" && (t[0] == '#' || t[0] == ';') &&
    var f := CommentFields(line); |f| >= 5 && f[0] == from && f[1] == to
  }

  /** What a line after a leg contributes: the end of the repeats, nothing, or one more shot. */
  datatype Repeat = Stop | Skip | Shot(leg: Leg)

  /**
   * One line after the leg: a repeat with three readable numbers is a shot,
   * a repeat whose readings are not numbers is passed over, and any other
   * line ends the repeats.
   */
  function RepeatLine(line: string, from: string, to: string, parse: NumberParser): (r: Repeat)
    ensures r.Shot? ==> !r.leg.HasDestination() && !r.leg.WasPromoted()
  {
    if !IsRepeatLine(line, from, to) then Stop
    else
      var fields := CommentFields(line);
      var d := parse(fields[2]);
      var a := parse(fields[3]);
      var i := parse(fields[4]);
      if d.Some? && a.Some? && i.Some? then Shot(Splay(0, d.value, a.value, i.value)) else Skip
  }

  /** Only repeat lines go on the repeats; a shot is one whose three readings are numbers, and it is a plain splay of them. */
  lemma RepeatLineReads(line: string, from: string, to: string, parse: NumberParser)
    ensures RepeatLine(line, from, to, parse) != Stop <==> IsRepeatLine(line, from, to)
    ensures IsRepeatLine(line, from, to) ==> var f := CommentFields(line);
      (RepeatLine(line, from, to, parse).Shot? <==> parse(f[2]).Some? && parse(f[3]).Some? && parse(f[4]).Some?) &&
      (RepeatLine(line, from, to, parse).Shot? ==>
         RepeatLine(line, from, to, parse).leg == Splay(0, parse(f[2]).value, parse(f[3]).value, parse(f[4]).value))
  {
  }

  /** The repeats from one line on, given what that line is and what the lines after it give. */
  function Continued(seen: Repeat, after: seq<Leg>): seq<Leg>
  {
    match seen
    case Stop => []
    case Skip => after
    case Shot(leg) => [leg] + after
  }

  /** The shots gathered so far followed by the repeats from one line on. */
  lemma ContinuedAfter(shots: seq<Leg>, seen: Repeat, after: seq<Leg>)
    ensures seen.Stop? ==> shots + Continued(seen, after) == shots
    ensures seen.Skip? ==> shots + Continued(seen, after) == shots + after
    ensures seen.Shot? ==> shots + Continued(seen, after) == (shots + [seen.leg]) + after
  {
    if seen.Shot? {
      assert shots + ([seen.leg] + after) == (shots + [seen.leg]) + after;
    } else if seen.Stop? {
      assert shots + [] == shots;
    }
  }

  /** The shots of the repeat lines at the head of lines, in order, up to the first line that ends them. */
  function CommentedRepeats(lines: seq<string>, from: string, to: string, parse: NumberParser): (r: seq<Leg>)
    ensures |r| <= |lines|
  {
    if lines == [] then []
    else Continued(RepeatLine(lines[0], from, to, parse), CommentedRepeats(lines[1..], from, to, parse))
  }

  /** Repeats end at the first line that is not one: nothing after it is read. */
  lemma {:induction false} CommentedRepeatsStop(lines: seq<string>, rest: seq<string>, from: string, to: string, parse: NumberParser, stop: string)
    requires RepeatLine(stop, from, to, parse) == Stop
    ensures CommentedRepeats(lines + [stop] + rest, from, to, parse) == CommentedRepeats(lines + [stop], from, to, parse)
    decreases |lines|
  {
    if lines == [] {
      assert ([stop] + rest)[0] == stop && [stop][0] == stop;
    } else {
      assert (lines + [stop] + rest)[1..] == lines[1..] + [stop] + rest;
      assert (lines + [stop])[1..] == lines[1..] + [stop];
      CommentedRepeatsStop(lines[1..], rest, from, to, parse, stop);
    }
  }

  /** The repeats are plain shots, without destination or provenance. */
  lemma {:induction false} CommentedRepeatsArePlain(lines: seq<string>, from: string, to: string, parse: NumberParser)
    ensures forall k :: 0 <= k < |CommentedRepeats(lines, from, to, parse)| ==>
      !CommentedRepeats(lines, from, to, parse)[k].HasDestination() && !CommentedRepeats(lines, from, to, parse)[k].WasPromoted()
  {
    if lines != [] {
      CommentedRepeatsArePlain(lines[1..], from, to, parse);
    }
  }

  lemma CommentedRepeatsAt(lines: seq<string>, from: string, to: string, parse: NumberParser, i: nat)
    requires i < |lines|
    ensures CommentedRepeats(lines[i..], from, to, parse) ==
      Continued(RepeatLine(lines[i], from, to, parse), CommentedRepeats(lines[i + 1..], from, to, parse))
  {
    assert lines[i..][0] == lines[i] && lines[i..][1..] == lines[i + 1..];
  }

  /** parseCommentedNewLinePromotedLegs: the lines after startIndex, scanned until one ends the repeats. */
  method ParseCommentedRepeats(lines: seq<string>, startIndex: nat, from: string, to: string, parse: NumberParser)
    returns (shots: seq<Leg>)
    requires startIndex < |lines|
    ensures shots == CommentedRepeats(lines[startIndex + 1..], from, to, parse)
  {
    shots := [];
    var i := startIndex + 1;
    assert [] + CommentedRepeats(lines[i..], from, to, parse) == CommentedRepeats(lines[i..], from, to, parse);
    while i < |lines|
      invariant startIndex + 1 <= i <= |lines|
      invariant CommentedRepeats(lines[startIndex + 1..], from, to, parse) == shots + CommentedRepeats(lines[i..], from, to, parse)
      decreases |lines| - i
    {
      var seen := RepeatLine(lines[i], from, to, parse);
      CommentedRepeatsAt(lines, from, to, parse, i);
      ContinuedAfter(shots, seen, CommentedRepeats(lines[i + 1..], from, to, parse));
      if seen.Stop? {
        return;
      }
      if seen.Shot? {
        shots := shots + [seen.leg];
      }
      i := i + 1;
    }
    assert lines[|lines|..] == [];
    assert shots + [] == shots;
  }

  // ---- isBackwardLeg -------------------------------------------------------

  /** isBackwardLeg: the "from" name is new and the "to" name is known; both new or both known count as forward. */
  function IsBackwardLeg<T>(fromName: string, toName: string, seen: map<string, T>): (r: bool)
    ensures r <==> fromName !in seen && toName in seen
  {
    var fromIsNew := fromName !in seen;
    var toIsNew := toName !in seen;
    if fromIsNew && toIsNew then false
    else if !fromIsNew && !toIsNew then false
    else fromIsNew
  }
}
