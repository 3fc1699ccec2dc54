/**
 * The thconfig file the Therion export writes beside the .th file: a
 * template in which every "<surveyname>" (in any letter case) becomes the
 * survey's name, a fixed default used when the user's template is empty,
 * and the check the settings screen runs on a template before accepting
 * it. The user's template, the user's file name pattern and the encoding
 * line Therion expects come in as parameters.
 */
module ThconfigExporter {
  import opened Text

  const Placeholder := "<surveyname>"

  /** What the placeholder's brackets hold. */
  const PlaceholderName := "surveyname"

  const DefaultLayout :=
    "layout local\n" + "  debug off\n" + "  # map-header 0 0 off\n" +
    "  # symbol-hide group cave-centreline\n" + "endlayout"

  // The four lines of the default content that name files after the survey,
  // each the text before the name and the text after it.

  const SourceStart := "source \""
  const SourceEnd := ".th\""
  const ModelStart := "export model -fmt survex -o \""
  const ModelEnd := "-th.3d\""
  const PlanStart := "export map -proj plan -layout local -o \""
  const PlanEnd := "-plan.pdf\""
  const ElevationStart := "export map -proj extended -layout local -o \""
  const ElevationEnd := "-ee.pdf\""

  function SourceLine(name: string): string { SourceStart + name + SourceEnd }

  function ModelLine(name: string): string { ModelStart + name + ModelEnd }

  function PlanLine(name: string): string { PlanStart + name + PlanEnd }

  function ElevationLine(name: string): string { ElevationStart + name + ElevationEnd }

  /** The six blocks of the default content, in their order, naming the survey files after name. */
  function Blocks(encoding: string, name: string): seq<string>
  {
    [encoding, DefaultLayout, SourceLine(name), ModelLine(name), PlanLine(name), ElevationLine(name)]
  }

  /** getDefaultContent: the blocks, naming files after the placeholder, one blank line apart. */
  function DefaultContent(encoding: string): string
  {
    Join(Blocks(encoding, Placeholder), "\n\n")
  }

  /* ----- replaceSurveyname ----- */

  /** Whether the placeholder, in some letter case, starts at index i of text. */
  predicate PlaceholderAt(text: string, i: int)
  {
    0 <= i && i + |Placeholder| <= |text| && EqualsIgnoreCase(text[i..i + |Placeholder|], Placeholder)
  }

  /**
   * replaceSurveyname: a case-insensitive search for the placeholder, left to
   * right and without overlap, each match replaced by the name.
   */
  function ReplaceSurveyname(text: string, name: string): (r: string)
    ensures '<' !in text ==> r == text
    decreases |text|
  {
    if |text| < |Placeholder| then text
    else if EqualsIgnoreCase(text[..|Placeholder|], Placeholder) then
      MatchStartsWithOpen(text);
      name + ReplaceSurveyname(text[|Placeholder|..], name)
    else
      [text[0]] + ReplaceSurveyname(text[1..], name)
  }

  /** A match of the placeholder, whatever its letter case, starts with '<'. */
  lemma MatchStartsWithOpen(text: string)
    requires |text| >= |Placeholder| && EqualsIgnoreCase(text[..|Placeholder|], Placeholder)
    ensures text[0] == '<'
  {
    assert LowerChar(text[0]) == LowerChar(Placeholder[0]);
  }

  /** A character other than '<' starts no placeholder and is copied. */
  lemma ReplaceCopiesFirst(text: string, name: string)
    requires text != [] && text[0] != '<'
    ensures ReplaceSurveyname(text, name) == [text[0]] + ReplaceSurveyname(text[1..], name)
  {
    if |text| < |Placeholder| {
      assert text == [text[0]] + text[1..];
    } else if EqualsIgnoreCase(text[..|Placeholder|], Placeholder) {
      MatchStartsWithOpen(text);
    }
  }

  /** Text in which the placeholder starts nowhere, in any letter case, comes back unchanged. */
  lemma {:induction false} ReplaceWithoutPlaceholder(text: string, name: string)
    requires forall i :: !PlaceholderAt(text, i)
    ensures ReplaceSurveyname(text, name) == text
    decreases |text|
  {
    if |text| >= |Placeholder| {
      assert !PlaceholderAt(text, 0);
      assert text[0..|Placeholder|] == text[..|Placeholder|];
      forall i ensures !PlaceholderAt(text[1..], i) {
        if PlaceholderAt(text[1..], i) {
          assert text[1..][i..i + |Placeholder|] == text[i + 1..i + 1 + |Placeholder|];
          assert PlaceholderAt(text, i + 1);
        }
      }
      ReplaceWithoutPlaceholder(text[1..], name);
      assert text == [text[0]] + text[1..];
    }
  }

  /** A prefix without '<' holds no placeholder and is copied as it is. */
  lemma {:induction false} ReplaceAfterPlain(pre: string, post: string, name: string)
    requires '<' !in pre
    ensures ReplaceSurveyname(pre + post, name) == pre + ReplaceSurveyname(post, name)
    decreases |pre|
  {
    if pre == [] {
      assert pre + post == post;
    } else {
      hide *;
      var s, rest := pre + post, pre[1..];
      assert s[1..] == rest + post;
      assert s[0] == pre[0];
      ReplaceAfterPlain(rest, post, name);
      ReplaceCopiesFirst(s, name);
      ConsAppend(pre, ReplaceSurveyname(post, name));
    }
  }

  lemma ConsAppend(a: string, b: string)
    requires a != []
    ensures [a[0]] + (a[1..] + b) == a + b
  {
    assert a == [a[0]] + a[1..];
  }

  /** Each occurrence of the placeholder, whatever its letter case, becomes the name. */
  lemma ReplacePlaceholder(p: string, post: string, name: string)
    requires EqualsIgnoreCase(p, Placeholder)
    ensures ReplaceSurveyname(p + post, name) == name + ReplaceSurveyname(post, name)
  {
    var s := p + post;
    assert s[..|Placeholder|] == p;
    assert s[|Placeholder|..] == post;
  }

  /** Text around a placeholder: the name replaces it, the text before it stays. */
  lemma ReplaceOne(pre: string, p: string, post: string, name: string)
    requires '<' !in pre && EqualsIgnoreCase(p, Placeholder)
    ensures ReplaceSurveyname(pre + p + post, name) == pre + name + ReplaceSurveyname(post, name)
  {
    hide ReplaceSurveyname;
    var t := p + post;
    assert pre + p + post == pre + t;
    ReplaceAfterPlain(pre, t, name);
    ReplacePlaceholder(p, post, name);
    assert pre + (name + ReplaceSurveyname(post, name)) == pre + name + ReplaceSurveyname(post, name);
  }

  /* ----- getDefaultContent ----- */

  lemma JoinCons(first: string, rest: seq<string>, sep: string)
    requires rest != []
    ensures Join([first] + rest, sep) == first + sep + Join(rest, sep)
  {
    assert ([first] + rest)[1..] == rest;
  }

  lemma LayoutWithoutOpen()
    ensures '<' !in DefaultLayout
  {
  }

  lemma PlaceholderMatchesItself()
    ensures EqualsIgnoreCase(Placeholder, Placeholder)
  {
  }

  /** Only the placeholders bring a '<' into the default content. */
  lemma PiecesWithoutOpen()
    ensures '<' !in SourceStart && '<' !in SourceEnd && '<' !in ModelStart && '<' !in ModelEnd
    ensures '<' !in PlanStart && '<' !in PlanEnd && '<' !in ElevationStart && '<' !in ElevationEnd
  {
    MapPiecesWithoutOpen();
  }

  lemma MapPiecesWithoutOpen()
    ensures '<' !in PlanStart && '<' !in ElevationStart
  {
  }

  /** A block without '<' ahead of the others is copied by the substitution. */
  lemma ReplacePlainBlock(first: string, rest: seq<string>, sep: string, name: string)
    requires '<' !in first && '<' !in sep && rest != []
    ensures ReplaceSurveyname(Join([first] + rest, sep), name)
      == first + sep + ReplaceSurveyname(Join(rest, sep), name)
  {
    JoinCons(first, rest, sep);
    ReplaceAfterPlain(first + sep, Join(rest, sep), name);
  }

  /** A block naming the placeholder once, ahead of the others, gets the name in its place. */
  lemma ReplaceNamedBlock(start: string, end: string, rest: seq<string>, sep: string, name: string)
    requires '<' !in start && '<' !in end && '<' !in sep && rest != []
    ensures ReplaceSurveyname(Join([start + Placeholder + end] + rest, sep), name)
      == start + name + end + sep + ReplaceSurveyname(Join(rest, sep), name)
  {
    hide *;
    var j := Join(rest, sep);
    JoinCons(start + Placeholder + end, rest, sep);
    assert start + Placeholder + end + sep + j == start + Placeholder + (end + sep + j);
    PlaceholderMatchesItself();
    ReplaceOne(start, Placeholder, end + sep + j, name);
    ReplaceAfterPlain(end + sep, j, name);
    assert start + name + (end + sep + ReplaceSurveyname(j, name)) == start + name + end + sep + ReplaceSurveyname(j, name);
  }

  lemma JoinOne(only: string, sep: string)
    ensures Join([only], sep) == only
  {
  }

  /**
   * Six blocks, the last four naming the placeholder once each between text
   * without '<': the substitution puts the name in each of the four places.
   */
  lemma ReplaceSixBlocks(e: string, l: string, s1: string, s2: string, m1: string, m2: string,
                         p1: string, p2: string, x1: string, x2: string, sep: string, name: string)
    requires '<' !in e && '<' !in l && '<' !in sep
    requires '<' !in s1 && '<' !in s2 && '<' !in m1 && '<' !in m2
    requires '<' !in p1 && '<' !in p2 && '<' !in x1 && '<' !in x2
    ensures ReplaceSurveyname(Join([e, l, s1 + Placeholder + s2, m1 + Placeholder + m2,
                                    p1 + Placeholder + p2, x1 + Placeholder + x2], sep), name)
      == Join([e, l, s1 + name + s2, m1 + name + m2, p1 + name + p2, x1 + name + x2], sep)
  {
    hide *;
    var P := Placeholder;
    var sp, mp, pp, xp := s1 + P + s2, m1 + P + m2, p1 + P + p2, x1 + P + x2;
    var sn, mn, pn, xn := s1 + name + s2, m1 + name + m2, p1 + name + p2, x1 + name + x2;
    PlaceholderMatchesItself();
    // the last block
    ReplaceOne(x1, P, x2, name);
    JoinOne(xp, sep);
    JoinOne(xn, sep);
    assert ReplaceSurveyname(Join([xp], sep), name) == Join([xn], sep);
    // the plan export
    ReplaceNamedBlock(p1, p2, [xp], sep, name);
    JoinCons(pn, [xn], sep);
    assert [pp] + [xp] == [pp, xp] && [pn] + [xn] == [pn, xn];
    assert ReplaceSurveyname(Join([pp, xp], sep), name) == Join([pn, xn], sep);
    // the model export
    ReplaceNamedBlock(m1, m2, [pp, xp], sep, name);
    JoinCons(mn, [pn, xn], sep);
    assert [mp] + [pp, xp] == [mp, pp, xp] && [mn] + [pn, xn] == [mn, pn, xn];
    assert ReplaceSurveyname(Join([mp, pp, xp], sep), name) == Join([mn, pn, xn], sep);
    // the source line
    ReplaceNamedBlock(s1, s2, [mp, pp, xp], sep, name);
    JoinCons(sn, [mn, pn, xn], sep);
    assert [sp] + [mp, pp, xp] == [sp, mp, pp, xp] && [sn] + [mn, pn, xn] == [sn, mn, pn, xn];
    assert ReplaceSurveyname(Join([sp, mp, pp, xp], sep), name) == Join([sn, mn, pn, xn], sep);
    // the layout
    ReplacePlainBlock(l, [sp, mp, pp, xp], sep, name);
    JoinCons(l, [sn, mn, pn, xn], sep);
    assert [l] + [sp, mp, pp, xp] == [l, sp, mp, pp, xp] && [l] + [sn, mn, pn, xn] == [l, sn, mn, pn, xn];
    // the encoding
    ReplacePlainBlock(e, [l, sp, mp, pp, xp], sep, name);
    JoinCons(e, [l, sn, mn, pn, xn], sep);
    assert [e] + [l, sp, mp, pp, xp] == [e, l, sp, mp, pp, xp] && [e] + [l, sn, mn, pn, xn] == [e, l, sn, mn, pn, xn];
  }

  /**
   * Substituting a name into the default content gives the same six blocks
   * naming the survey's files after that name.
   */
  lemma DefaultContentNamed(encoding: string, name: string)
    requires '<' !in encoding
    ensures ReplaceSurveyname(DefaultContent(encoding), name) == Join(Blocks(encoding, name), "\n\n")
  {
    LayoutWithoutOpen();
    PiecesWithoutOpen();
    ReplaceSixBlocks(encoding, DefaultLayout, SourceStart, SourceEnd, ModelStart, ModelEnd,
                     PlanStart, PlanEnd, ElevationStart, ElevationEnd, "\n\n", name);
  }

  /* ----- getContent and getThconfigFilename ----- */

  /** getContent: the user's template, or the default when it is empty, with the survey named. */
  function GetContent(template: string, encoding: string, surveyName: string): (r: string)
    ensures template == "" && '<' !in encoding ==> r == Join(Blocks(encoding, surveyName), "\n\n")
    ensures template != "" && '<' !in template ==> r == template
  {
    var chosen := if template == "" then DefaultContent(encoding) else template;
    assert template == "" && '<' !in encoding
      ==> ReplaceSurveyname(chosen, surveyName) == Join(Blocks(encoding, surveyName), "\n\n") by {
      if template == "" && '<' !in encoding {
        DefaultContentNamed(encoding, surveyName);
      }
    }
    ReplaceSurveyname(chosen, surveyName)
  }

  /** getThconfigFilename: the user's file name pattern with the survey named. */
  function GetThconfigFilename(pattern: string, surveyName: string): (r: string)
    ensures '<' !in pattern ==> r == pattern
  {
    ReplaceSurveyname(pattern, surveyName)
  }

  /** A pattern that starts with the placeholder, in any letter case, names the file after the survey. */
  lemma ThconfigFilenameNamed(p: string, suffix: string, surveyName: string)
    requires EqualsIgnoreCase(p, Placeholder) && '<' !in suffix
    ensures GetThconfigFilename(p + suffix, surveyName) == surveyName + suffix
  {
    ReplacePlaceholder(p, suffix, surveyName);
  }

  /* ----- isValidTemplate ----- */

  /**
   * A match of the pattern <([^>]+)>: a '<' at i, the first '>' after it at
   * k, and at least one character between them.
   */
  predicate Group(text: string, i: int, k: int)
  {
    0 <= i && i + 1 < k < |text| && text[i] == '<' && text[k] == '>'
    && forall m :: i < m < k ==> text[m] != '>'
  }

  /** Every bracketed group of the text holds the placeholder's name, in some letter case. */
  ghost predicate ValidTemplate(text: string)
  {
    forall i, k :: Group(text, i, k) ==> EqualsIgnoreCase(text[i + 1..k], PlaceholderName)
  }

  /**
   * The successive matches of Matcher.find from index from on: each match
   * is checked, and the search goes on after it.
   */
  function ValidFrom(text: string, from: nat): bool
    decreases |text| - from
  {
    if from >= |text| then true
    else if text[from] == '<' then
      match IndexOfFrom(text, '>', from + 1)
      case Some(k) =>
        if k > from + 1 then
          EqualsIgnoreCase(text[from + 1..k], PlaceholderName) && ValidFrom(text, k + 1)
        else ValidFrom(text, from + 1)
      case None => ValidFrom(text, from + 1)
    else ValidFrom(text, from + 1)
  }

  /** The placeholder's name, in any letter case, holds no '<'. */
  lemma NameHasNoOpen(content: string)
    requires EqualsIgnoreCase(content, PlaceholderName)
    ensures '<' !in content
  {
    forall m | 0 <= m < |content| ensures content[m] != '<' {
      assert 'a' <= PlaceholderName[m] <= 'z';
    }
  }

  /** The scan from index from accepts exactly when every group starting there or later holds the name. */
  lemma {:induction false} ValidFromExactly(text: string, from: nat)
    ensures ValidFrom(text, from)
      <==> forall i, k :: from <= i && Group(text, i, k) ==> EqualsIgnoreCase(text[i + 1..k], PlaceholderName)
    decreases |text| - from
  {
    if from < |text| {
      ValidFromExactly(text, from + 1);
      if text[from] == '<' {
        var close := IndexOfFrom(text, '>', from + 1);
        if close.Some? && close.value > from + 1 {
          var k := close.value;
          assert Group(text, from, k);
          ValidFromExactly(text, k + 1);
          if EqualsIgnoreCase(text[from + 1..k], PlaceholderName) {
            NameHasNoOpen(text[from + 1..k]);
            forall m | from < m < k ensures text[m] != '<' {
              assert text[m] == text[from + 1..k][m - from - 1];
            }
            forall i, k' | from <= i <= k && Group(text, i, k') ensures i == from && k' == k {
            }
          }
        } else {
          forall k' ensures !Group(text, from, k') {
          }
        }
      }
    }
  }

  /**
   * isValidTemplate: the loop over the pattern's matches, returning false at
   * the first whose content is not the placeholder's name.
   */
  method IsValidTemplate(text: string) returns (valid: bool)
    ensures valid <==> ValidTemplate(text)
  {
    ValidFromExactly(text, 0);
    var from := 0;
    while from < |text|
      invariant 0 <= from <= |text|
      invariant ValidFrom(text, from) == ValidFrom(text, 0)
      decreases |text| - from
    {
      if text[from] == '<' {
        var close := IndexOfFrom(text, '>', from + 1);
        if close.Some? && close.value > from + 1 {
          if !EqualsIgnoreCase(text[from + 1..close.value], PlaceholderName) {
            return false;
          }
          from := close.value + 1;
        } else {
          from := from + 1;
        }
      } else {
        from := from + 1;
      }
    }
    return true;
  }

  /** Text without '<' has no group and is valid. */
  lemma PlainTemplateValid(text: string)
    requires '<' !in text
    ensures ValidTemplate(text)
  {
    forall i | 0 <= i < |text| ensures text[i] != '<' {
      assert text[i] in text;
    }
  }

  /** A group holding anything other than the placeholder's name is refused. */
  lemma OtherGroupRefused(content: string)
    requires content != [] && '>' !in content && !EqualsIgnoreCase(content, PlaceholderName)
    ensures !ValidTemplate("<" + content + ">")
  {
    var s := "<" + content + ">";
    assert s[1..|s| - 1] == content;
    forall m | 0 < m < |s| - 1 ensures s[m] != '>' {
      assert s[m] == content[m - 1];
    }
    assert Group(s, 0, |s| - 1);
  }

  /** Groups of a suffix are the groups of the whole text that start inside that suffix. */
  lemma GroupShift(pre: string, post: string, i: int, k: int)
    requires i >= |pre|
    ensures Group(pre + post, i, k) <==> Group(post, i - |pre|, k - |pre|)
    ensures Group(post, i - |pre|, k - |pre|) ==> (pre + post)[i + 1..k] == post[i - |pre| + 1..k - |pre|]
  {
    var s := pre + post;
    if Group(post, i - |pre|, k - |pre|) {
      forall m | i < m < k ensures s[m] != '>' {
        assert s[m] == post[m - |pre|];
      }
    }
    if Group(s, i, k) {
      forall m | i - |pre| < m < k - |pre| ensures post[m] != '>' {
        assert s[m + |pre|] == post[m];
      }
    }
  }

  /**
   * Text without '<' then a placeholder in some letter case: valid exactly
   * when what follows is, so "<SurveyName>" is accepted like "<surveyname>".
   */
  lemma ValidAfterPlaceholder(pre: string, p: string, post: string)
    requires '<' !in pre && EqualsIgnoreCase(p, Placeholder)
    ensures ValidTemplate(pre + p + post) <==> ValidTemplate(post)
  {
    var x := pre + p;
    var s := x + post;
    assert s[|pre|] == '<' by { assert s[|pre|] == p[0]; }
    assert s[|x| - 1] == '>' by { assert s[|x| - 1] == p[11]; }
    forall m | |pre| < m < |x| - 1 ensures s[m] != '<' && s[m] != '>' {
      assert s[m] == p[m - |pre|];
      assert LowerChar(p[m - |pre|]) == LowerChar(Placeholder[m - |pre|]);
      assert 'a' <= Placeholder[m - |pre|] <= 'z';
    }
    assert s[|pre| + 1..|x| - 1] == p[1..11];
    assert EqualsIgnoreCase(p[1..11], PlaceholderName) by {
      forall m | 0 <= m < 10 ensures LowerChar(p[1..11][m]) == LowerChar(PlaceholderName[m]) {
        assert p[1..11][m] == p[m + 1];
        assert PlaceholderName[m] == Placeholder[m + 1];
      }
    }
    forall m | 0 <= m < |pre| ensures s[m] != '<' {
      assert s[m] == pre[m];
    }
    forall i, k | Group(s, i, k) && i < |x| ensures i == |pre| && k == |x| - 1 {
    }
    forall i, k | Group(s, i, k) && i >= |x|
      ensures Group(post, i - |x|, k - |x|) && s[i + 1..k] == post[i - |x| + 1..k - |x|]
    {
      GroupShift(x, post, i, k);
    }
    forall i, k | Group(post, i, k)
      ensures Group(s, i + |x|, k + |x|) && s[i + |x| + 1..k + |x|] == post[i + 1..k]
    {
      GroupShift(x, post, i + |x|, k + |x|);
    }
  }

  /** Text without '<' in front changes no group. */
  lemma ValidAfterPlain(pre: string, post: string)
    requires '<' !in pre
    ensures ValidTemplate(pre + post) <==> ValidTemplate(post)
  {
    var s := pre + post;
    forall m | 0 <= m < |pre| ensures s[m] != '<' {
      assert s[m] == pre[m];
    }
    forall i, k | Group(s, i, k)
      ensures Group(post, i - |pre|, k - |pre|) && s[i + 1..k] == post[i - |pre| + 1..k - |pre|]
    {
      GroupShift(pre, post, i, k);
    }
    forall i, k | Group(post, i, k)
      ensures Group(s, i + |pre|, k + |pre|) && s[i + |pre| + 1..k + |pre|] == post[i + 1..k]
    {
      GroupShift(pre, post, i + |pre|, k + |pre|);
    }
  }

  /** A block without '<' ahead of the others leaves the check to them. */
  lemma ValidPlainBlock(first: string, rest: seq<string>, sep: string)
    requires '<' !in first && '<' !in sep && rest != []
    ensures ValidTemplate(Join([first] + rest, sep)) <==> ValidTemplate(Join(rest, sep))
  {
    JoinCons(first, rest, sep);
    ValidAfterPlain(first + sep, Join(rest, sep));
  }

  /** A block holding the placeholder once, ahead of the others, leaves the check to them. */
  lemma ValidNamedBlock(start: string, end: string, rest: seq<string>, sep: string)
    requires '<' !in start && '<' !in end && '<' !in sep && rest != []
    ensures ValidTemplate(Join([start + Placeholder + end] + rest, sep)) <==> ValidTemplate(Join(rest, sep))
  {
    hide *;
    var j := Join(rest, sep);
    JoinCons(start + Placeholder + end, rest, sep);
    assert start + Placeholder + end + sep + j == start + Placeholder + (end + sep + j);
    PlaceholderMatchesItself();
    ValidAfterPlaceholder(start, Placeholder, end + sep + j);
    ValidAfterPlain(end + sep, j);
  }

  /** The default content passes the check the settings screen runs. */
  lemma DefaultContentValid(encoding: string)
    requires '<' !in encoding
    ensures ValidTemplate(DefaultContent(encoding))
  {
    var sep := "\n\n";
    var b := Blocks(encoding, Placeholder);
    LayoutWithoutOpen();
    PiecesWithoutOpen();
    assert EqualsIgnoreCase(Placeholder, Placeholder);
    PlainTemplateValid(ElevationEnd);
    ValidAfterPlaceholder(ElevationStart, Placeholder, ElevationEnd);
    assert b[5..] == [ElevationLine(Placeholder)];
    assert ValidTemplate(Join(b[5..], sep));
    assert b[4..] == [b[4]] + b[5..];
    ValidNamedBlock(PlanStart, PlanEnd, b[5..], sep);
    assert b[3..] == [b[3]] + b[4..];
    ValidNamedBlock(ModelStart, ModelEnd, b[4..], sep);
    assert b[2..] == [b[2]] + b[3..];
    ValidNamedBlock(SourceStart, SourceEnd, b[3..], sep);
    assert b[1..] == [b[1]] + b[2..];
    ValidPlainBlock(DefaultLayout, b[2..], sep);
    assert b == [b[0]] + b[1..];
    ValidPlainBlock(encoding, b[1..], sep);
  }
}
