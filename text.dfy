/**
 * The parts of java.lang.String that the importers and exporters rely on,
 * with Java's own edge cases: trim() drops every character up to U+0020,
 * split() on a regular expression drops trailing empty pieces, and
 * toLowerCase() is taken on the ASCII range.
 */
module Text {
  import opened Wrappers

  /** Characters String.trim() removes from both ends. */
  predicate IsBlank(c: char) { c <= ' ' }

  /** The character class \s of java.util.regex. */
  predicate IsSpace(c: char)
  {
    c == ' ' || c == '\t' || c == '\n' || c == '\U{0B}' || c == '\U{0C}' || c == '\r'
  }

  predicate StartsWith(s: string, prefix: string) { prefix <= s }

  predicate EndsWith(s: string, suffix: string)
  {
    |suffix| <= |s| && s[|s| - |suffix|..] == suffix
  }

  function TrimStart(s: string): (r: string)
    ensures |r| <= |s|
    ensures r == [] || !IsBlank(r[0])
  {
    if s != [] && IsBlank(s[0]) then TrimStart(s[1..]) else s
  }

  function TrimEnd(s: string): (r: string)
    ensures |r| <= |s|
    ensures r == [] || (r[0] == s[0] && !IsBlank(r[|r| - 1]))
  {
    if s != [] && IsBlank(s[|s| - 1]) then TrimEnd(s[..|s| - 1]) else s
  }

  /** String.trim(). */
  function Trim(s: string): (r: string)
    ensures |r| <= |s|
    ensures r == [] || (!IsBlank(r[0]) && !IsBlank(r[|r| - 1]))
  {
    TrimEnd(TrimStart(s))
  }

  /** A string that trim() leaves as it is. */
  predicate IsTrimmed(s: string)
  {
    s == [] || (!IsBlank(s[0]) && !IsBlank(s[|s| - 1]))
  }

  lemma TrimOfTrimmed(s: string)
    requires IsTrimmed(s)
    ensures Trim(s) == s
  {
  }

  lemma TrimOfPadded(pad: string, s: string)
    requires forall k :: 0 <= k < |pad| ==> IsBlank(pad[k])
    requires IsTrimmed(s)
    ensures Trim(pad + s) == s
  {
    var t := pad + s;
    if pad != [] {
      assert t[1..] == pad[1..] + s;
      TrimOfPadded(pad[1..], s);
    } else {
      assert t == s;
    }
  }

  /** First index of c in s at or after from: String.indexOf(c, from). */
  function IndexOfFrom(s: string, c: char, from: nat): (r: Option<nat>)
    ensures r.Some? ==> from <= r.value < |s| && s[r.value] == c
    ensures r.Some? ==> forall k :: from <= k < r.value ==> s[k] != c
    ensures r.None? ==> forall k :: from <= k < |s| ==> s[k] != c
    decreases |s| - from
  {
    if from >= |s| then None
    else if s[from] == c then Some(from)
    else IndexOfFrom(s, c, from + 1)
  }

  function IndexOf(s: string, c: char): Option<nat>
  {
    IndexOfFrom(s, c, 0)
  }

  /** The first c of pre + [c] + post is the one after pre, when pre has none. */
  lemma IndexOfAfter(pre: string, c: char, post: string)
    requires c !in pre
    ensures IndexOf(pre + [c] + post, c) == Some(|pre|)
  {
    var s := pre + [c] + post;
    assert s[|pre|] == c;
    forall k | 0 <= k < |pre| ensures s[k] != c {
      assert s[k] == pre[k];
    }
  }

  /** Length of the run of non-\s characters at the start of s. */
  function WordLength(s: string): (n: nat)
    ensures n <= |s|
    ensures forall k :: 0 <= k < n ==> !IsSpace(s[k])
    ensures n < |s| ==> IsSpace(s[n])
  {
    if s == [] || IsSpace(s[0]) then 0 else 1 + WordLength(s[1..])
  }

  /** The maximal runs of non-\s characters, in order. */
  function Tokens(s: string): seq<string>
    decreases |s|
  {
    if s == [] then []
    else if IsSpace(s[0]) then Tokens(s[1..])
    else
      var n := WordLength(s);
      [s[..n]] + Tokens(s[n..])
  }

  /** String.split("\\s+"): a leading separator yields one empty piece, trailing empty pieces are dropped. */
  function SplitWs(s: string): seq<string>
  {
    var t := Tokens(s);
    if |t| == 0 then (if |s| == 0 then [""] else [])
    else (if IsSpace(s[0]) then [""] else []) + t
  }

  /** String.split("\\s+", 2): at most two pieces, cut at the first run of \s. */
  function SplitWsOnce(s: string): (r: seq<string>)
    ensures 1 <= |r| <= 2
  {
    var n := WordLength(s);
    if n == |s| then [s]
    else [s[..n], SkipSpaces(s[n..])]
  }

  function SkipSpaces(s: string): string
  {
    if s != [] && IsSpace(s[0]) then SkipSpaces(s[1..]) else s
  }

  /** Every piece between occurrences of c, empty ones included. */
  function SplitAll(s: string, c: char): (r: seq<string>)
    ensures |r| >= 1
    ensures forall k :: 0 <= k < |r| ==> c !in r[k]
    decreases |s|
  {
    match IndexOf(s, c)
    case None => [s]
    case Some(k) => [s[..k]] + SplitAll(s[k + 1..], c)
  }

  function DropTrailingEmpty(parts: seq<string>): (r: seq<string>)
    ensures r <= parts
    ensures r == [] || r[|r| - 1] != ""
  {
    if parts == [] || parts[|parts| - 1] != "" then parts
    else DropTrailingEmpty(parts[..|parts| - 1])
  }

  /** String.split(String.valueOf(c)) for a character that is not special in a regular expression. */
  function SplitChar(s: string, c: char): seq<string>
  {
    if c !in s then [s] else DropTrailingEmpty(SplitAll(s, c))
  }

  /** Text without the separator is a single piece. */
  lemma SplitAllWithout(s: string, c: char)
    requires c !in s
    ensures SplitAll(s, c) == [s]
  {
    assert IndexOf(s, c).None?;
  }

  /** The first piece starts with any prefix free of the separator. */
  lemma SplitAllFirst(prefix: string, c: char, rest: string)
    requires c !in prefix
    ensures StartsWith(SplitAll(prefix + rest, c)[0], prefix)
  {
    var s := prefix + rest;
    match IndexOf(s, c)
    case None =>
    case Some(k) =>
      assert k >= |prefix|;
      assert s[..k][..|prefix|] == prefix;
  }

  /** When the last piece is not empty, String.split keeps every piece. */
  lemma SplitCharAll(s: string, c: char)
    requires SplitAll(s, c)[|SplitAll(s, c)| - 1] != ""
    ensures SplitChar(s, c) == SplitAll(s, c)
  {
    if c !in s {
      SplitAllWithout(s, c);
    }
  }

  function Join(parts: seq<string>, sep: string): string
  {
    if parts == [] then ""
    else if |parts| == 1 then parts[0]
    else parts[0] + sep + Join(parts[1..], sep)
  }

  /** A character in neither the parts nor the separator is not in the joined text. */
  lemma {:induction false} JoinWithout(parts: seq<string>, sep: string, c: char)
    requires c !in sep
    requires forall k :: 0 <= k < |parts| ==> c !in parts[k]
    ensures c !in Join(parts, sep)
  {
    if |parts| > 1 {
      JoinWithout(parts[1..], sep, c);
      assert Join(parts, sep) == parts[0] + sep + Join(parts[1..], sep);
    }
  }

  /** Joining one more part puts the separator and the part at the end. */
  lemma {:induction false} JoinAppend(parts: seq<string>, p: string, sep: string)
    ensures Join(parts + [p], sep) == if parts == [] then p else Join(parts, sep) + sep + p
  {
    if parts == [] {
      assert parts + [p] == [p];
    } else if |parts| == 1 {
      assert (parts + [p])[1..] == [p];
    } else {
      assert (parts + [p])[1..] == parts[1..] + [p];
      JoinAppend(parts[1..], p, sep);
    }
  }

  /** Cutting parts joined by c, with c after the last, gives the parts back first. */
  lemma {:induction false} SplitAllJoined(parts: seq<string>, c: char, rest: string)
    requires parts != [] && forall k :: 0 <= k < |parts| ==> c !in parts[k]
    ensures SplitAll(Join(parts, [c]) + [c] + rest, c) == parts + SplitAll(rest, c)
  {
    hide SplitAll;
    if |parts| == 1 {
      assert Join(parts, [c]) == parts[0];
      SplitAllAt(parts[0], c, rest);
    } else {
      var inner := Join(parts[1..], [c]);
      var tail := inner + [c] + rest;
      assert Join(parts, [c]) == parts[0] + [c] + inner;
      assert Join(parts, [c]) + [c] + rest == parts[0] + [c] + tail;
      SplitAllAt(parts[0], c, tail);
      SplitAllJoined(parts[1..], c, rest);
      assert parts == [parts[0]] + parts[1..];
    }
  }

  function Concat(parts: seq<string>): string
  {
    if parts == [] then "" else parts[0] + Concat(parts[1..])
  }

  lemma ConcatAppend(a: seq<string>, b: seq<string>)
    ensures Concat(a + b) == Concat(a) + Concat(b)
  {
    if a != [] {
      assert (a + b)[1..] == a[1..] + b;
      ConcatAppend(a[1..], b);
    } else {
      assert a + b == b;
    }
  }

  function LowerChar(c: char): char
  {
    if 'A' <= c <= 'Z' then (c as int + 32) as char else c
  }

  /** String.toLowerCase() on the ASCII letters. */
  function ToLower(s: string): (r: string)
    ensures |r| == |s|
    ensures forall k :: 0 <= k < |s| ==> r[k] == LowerChar(s[k])
  {
    if s == [] then [] else [LowerChar(s[0])] + ToLower(s[1..])
  }

  /** String.equalsIgnoreCase() on the ASCII letters. */
  predicate EqualsIgnoreCase(a: string, b: string)
  {
    |a| == |b| && forall k :: 0 <= k < |a| ==> LowerChar(a[k]) == LowerChar(b[k])
  }

  /** String.replace(target, replacement): every occurrence, scanning left to right without overlap. */
  function ReplaceLiteral(s: string, target: string, replacement: string): string
    requires target != []
    decreases |s|
  {
    if |s| < |target| then s
    else if target <= s then replacement + ReplaceLiteral(s[|target|..], target, replacement)
    else [s[0]] + ReplaceLiteral(s[1..], target, replacement)
  }

  lemma ReplaceLiteralAbsent(s: string, target: string, replacement: string)
    requires target != [] && target[0] !in s
    ensures ReplaceLiteral(s, target, replacement) == s
  {
    if |s| >= |target| {
      assert !(target <= s) by { assert s[0] != target[0]; }
      ReplaceLiteralAbsent(s[1..], target, replacement);
      assert [s[0]] + s[1..] == s;
    }
  }

  // ---- decimal numerals -------------------------------------------------

  predicate IsDigit(c: char) { '0' <= c <= '9' }

  predicate AllDigits(s: string) { forall k :: 0 <= k < |s| ==> IsDigit(s[k]) }

  function DigitChar(d: nat): char
    requires d < 10
  {
    ('0' as int + d) as char
  }

  /** String.valueOf of a non-negative integer: no sign, no leading zero. */
  function NatToString(n: nat): (r: string)
    ensures r != [] && AllDigits(r)
    ensures r[0] == '0' ==> n == 0
  {
    if n < 10 then [DigitChar(n)] else NatToString(n / 10) + [DigitChar(n % 10)]
  }

  function DigitsValue(s: string): nat
    requires AllDigits(s)
  {
    if s == [] then 0 else DigitsValue(s[..|s| - 1]) * 10 + (s[|s| - 1] as int - '0' as int)
  }

  /** Reading a numeral back gives the number that was written. */
  lemma {:induction false} DigitsValueOfNatToString(n: nat)
    ensures DigitsValue(NatToString(n)) == n
  {
    var r := NatToString(n);
    if n >= 10 {
      DigitsValueOfNatToString(n / 10);
      assert r[..|r| - 1] == NatToString(n / 10);
    }
  }

  lemma NatToStringInjective(m: nat, n: nat)
    requires NatToString(m) == NatToString(n)
    ensures m == n
  {
    DigitsValueOfNatToString(m);
    DigitsValueOfNatToString(n);
  }

  // ---- lines and words ----------------------------------------------------

  /** Each line followed by a line feed, as a StringBuilder holds them after appending each line and "\n". */
  function Lines(ls: seq<string>): string
  {
    if ls == [] then "" else ls[0] + "\n" + Lines(ls[1..])
  }

  lemma {:induction false} LinesAppend(ls: seq<string>, l: string)
    ensures Lines(ls + [l]) == Lines(ls) + l + "\n"
  {
    if ls == [] {
      assert ls + [l] == [l];
    } else {
      assert (ls + [l])[1..] == ls[1..] + [l];
      LinesAppend(ls[1..], l);
    }
  }

  lemma {:induction false} LinesConcat(a: seq<string>, b: seq<string>)
    ensures Lines(a + b) == Lines(a) + Lines(b)
  {
    if a == [] {
      assert a + b == b;
    } else {
      assert (a + b)[1..] == a[1..] + b;
      LinesConcat(a[1..], b);
    }
  }

  /** Cutting text made of lines at its line feeds gives the lines back first. */
  lemma {:induction false} SplitAllLines(ls: seq<string>, rest: string)
    requires forall k :: 0 <= k < |ls| ==> '\n' !in ls[k]
    ensures SplitAll(Lines(ls) + rest, '\n') == ls + SplitAll(rest, '\n')
  {
    if ls != [] {
      var tail := Lines(ls[1..]) + rest;
      calc {
        SplitAll(Lines(ls) + rest, '\n');
        { assert Lines(ls) + rest == ls[0] + ['\n'] + tail; }
        SplitAll(ls[0] + ['\n'] + tail, '\n');
        { SplitAllAt(ls[0], '\n', tail); }
        [ls[0]] + SplitAll(tail, '\n');
        { SplitAllLines(ls[1..], rest); }
        [ls[0]] + (ls[1..] + SplitAll(rest, '\n'));
        { assert ls == [ls[0]] + ls[1..]; }
        ls + SplitAll(rest, '\n');
      }
    } else {
      assert Lines(ls) + rest == rest;
    }
  }

  /** The first piece ends at the first separator. */
  lemma SplitAllAt(pre: string, c: char, tail: string)
    requires c !in pre
    ensures SplitAll(pre + [c] + tail, c) == [pre] + SplitAll(tail, c)
  {
    var s := pre + [c] + tail;
    IndexOfAfter(pre, c, tail);
    assert s[..|pre|] == pre;
    assert s[|pre| + 1..] == tail;
  }

  /** String.split("\n") of text made of lines: the lines, less the empty ones at the end. */
  lemma SplitCharLines(ls: seq<string>)
    requires ls != [] && forall k :: 0 <= k < |ls| ==> '\n' !in ls[k]
    ensures SplitChar(Lines(ls), '\n') == DropTrailingEmpty(ls)
  {
    SplitAllLines(ls, "");
    assert Lines(ls) + "" == Lines(ls);
    assert Lines(ls)[|ls[0]|] == '\n';
    assert IndexOf("", '\n') == None;
    assert (ls + [""])[..|ls|] == ls;
  }

  /** No piece of String.split at c holds c. */
  lemma SplitCharNoSeparator(s: string, c: char)
    ensures forall k :: 0 <= k < |SplitChar(s, c)| ==> c !in SplitChar(s, c)[k]
  {
    if c in s {
      var all := SplitAll(s, c);
      var r := DropTrailingEmpty(all);
      forall k | 0 <= k < |r| ensures c !in r[k] {
        assert r[k] == all[k];
      }
    }
  }

  /** Text made of lines is empty exactly when there are no lines. */
  lemma LinesEmpty(ls: seq<string>)
    ensures Lines(ls) == "" <==> ls == []
  {
    if ls != [] {
      assert |Lines(ls)| >= 1;
    }
  }

  /** A word: non-empty, and no character of it is one trim() would remove. */
  predicate IsWord(w: string)
  {
    w != "" && forall k :: 0 <= k < |w| ==> !IsBlank(w[k])
  }

  /** Each white-space character is one that trim() removes. */
  lemma SpaceIsBlank(c: char)
    requires IsSpace(c)
    ensures IsBlank(c)
  {
  }

  /** A run of characters that are not white space followed by white space is cut at the end of the run. */
  lemma {:induction false} WordLengthOfWord(word: string, rest: string)
    requires forall k :: 0 <= k < |word| ==> !IsSpace(word[k])
    requires rest != [] && IsSpace(rest[0])
    ensures WordLength(word + rest) == |word|
  {
    if word != [] {
      assert (word + rest)[1..] == word[1..] + rest;
      WordLengthOfWord(word[1..], rest);
    } else {
      assert word + rest == rest;
    }
  }

  /** A word is a string trim() leaves as it is. */
  lemma WordsTrimmed(words: seq<string>)
    requires forall k :: 0 <= k < |words| ==> IsWord(words[k])
    ensures forall k :: 0 <= k < |words| ==> words[k] != "" && IsTrimmed(words[k])
  {
  }

  /** Words joined by any separator: the text neither starts nor ends with a character trim() removes. */
  lemma {:induction false} JoinEnds(words: seq<string>, sep: string)
    requires words != [] && forall k :: 0 <= k < |words| ==> words[k] != "" && IsTrimmed(words[k])
    ensures var j := Join(words, sep);
      j != "" && !IsBlank(j[0]) && !IsBlank(j[|j| - 1])
  {
    if |words| > 1 {
      JoinEnds(words[1..], sep);
      var j := Join(words, sep);
      var r := Join(words[1..], sep);
      assert j == words[0] + sep + r;
      assert j[|j| - 1] == r[|r| - 1];
    }
  }

  /** Words joined by one white-space character are their own tokens. */
  lemma {:induction false} TokensOfJoinedWords(words: seq<string>, sep: char)
    requires IsSpace(sep)
    requires forall k :: 0 <= k < |words| ==> IsWord(words[k])
    ensures Tokens(Join(words, [sep])) == words
  {
    if words == [] {
    } else if |words| == 1 {
      TokensOfWord(words[0]);
    } else {
      var tail := Join(words[1..], [sep]);
      assert Join(words, [sep]) == words[0] + ([sep] + tail);
      TokensOfLeadingWord(words[0], sep, tail);
      TokensOfJoinedWords(words[1..], sep);
    }
  }

  /** A word alone is its one token. */
  lemma TokensOfWord(w: string)
    requires IsWord(w)
    ensures Tokens(w) == [w]
  {
    WordNoSpace(w);
    assert WordLength(w) == |w| by { WordLengthWhole(w); }
    assert w[..|w|] == w;
    assert w[|w|..] == [];
  }

  /** A word followed by a white-space character is the first token. */
  lemma TokensOfLeadingWord(w: string, sep: char, tail: string)
    requires IsWord(w) && IsSpace(sep)
    ensures Tokens(w + ([sep] + tail)) == [w] + Tokens(tail)
  {
    var rest := [sep] + tail;
    WordNoSpace(w);
    WordLengthOfWord(w, rest);
    assert (w + rest)[..|w|] == w;
    assert (w + rest)[|w|..] == rest;
    assert rest[1..] == tail;
  }

  lemma WordNoSpace(w: string)
    requires IsWord(w)
    ensures forall k :: 0 <= k < |w| ==> !IsSpace(w[k])
  {
    forall k | 0 <= k < |w| ensures !IsSpace(w[k]) {
      if IsSpace(w[k]) {
        SpaceIsBlank(w[k]);
      }
    }
  }

  lemma {:induction false} WordLengthWhole(w: string)
    requires forall k :: 0 <= k < |w| ==> !IsSpace(w[k])
    ensures WordLength(w) == |w|
  {
    if w != [] {
      WordLengthWhole(w[1..]);
    }
  }

  /** Words joined by tabs, with or without a tab after the last, split at white space into the words. */
  lemma SplitWsOfJoinedWords(words: seq<string>, pad: string)
    requires words != [] && forall k :: 0 <= k < |words| ==> IsWord(words[k])
    requires pad == "" || pad == "\t"
    ensures Trim(Join(words, "\t") + pad) == Join(words, "\t")
    ensures SplitWs(Trim(Join(words, "\t") + pad)) == words
  {
    var j := Join(words, "\t");
    WordsTrimmed(words);
    JoinEnds(words, "\t");
    TrimTrailingPad(j, pad);
    TokensOfJoinedWords(words, '\t');
    assert !IsSpace(j[0]) by { if IsSpace(j[0]) { SpaceIsBlank(j[0]); } }
  }

  lemma TrimTrailingPad(s: string, pad: string)
    requires s != "" && !IsBlank(s[0]) && !IsBlank(s[|s| - 1])
    requires pad == "" || pad == "\t"
    ensures Trim(s + pad) == s
  {
    var t := s + pad;
    assert t[0] == s[0];
    assert TrimStart(t) == t;
    assert TrimEnd(s) == s;
    if pad != "" {
      assert t[..|t| - 1] == s;
      assert IsBlank(t[|t| - 1]);
      assert TrimEnd(t) == TrimEnd(s);
    } else {
      assert t == s;
    }
  }
}
