/** Compressing a summary: normalise its lines, drop repeated ones, and select within a budget. */
module SummaryCompression {
  import opened Prelude
  import opened LineSelection

  const DEFAULT_MAX_CHARS: int := 4000
  const DEFAULT_MAX_LINES: int := 40
  const DEFAULT_MAX_LINE_CHARS: int := 160

  datatype Options = Options(maxChars: Option<int>, maxLines: Option<int>, maxLineChars: Option<int>)

  datatype Compressed = Compressed(text: string, truncated: bool)

  // ----- text and lines

  const ELLIPSIS := '\U{2026}'

  /** `split("\n")`. */
  function SplitLines(text: string): (lines: seq<string>)
    ensures lines != []
  {
    if text == "" then [""]
    else if text[0] == '\n' then [""] + SplitLines(text[1..])
    else
      var rest := SplitLines(text[1..]);
      [[text[0]] + rest[0]] + rest[1..]
  }

  /** The maximal runs of characters that are no whitespace. */
  function Words(line: string): seq<string> {
    if line == "" then []
    else
      var rest := Words(line[1..]);
      if IsJsSpace(line[0]) then rest
      else if |line| > 1 && !IsJsSpace(line[1]) && rest != [] then [[line[0]] + rest[0]] + rest[1..]
      else [[line[0]]] + rest
  }

  function CollapseInlineWhitespace(line: string): string {
    Join(Words(line), " ")
  }

  /** A negative limit cuts from the end, as `slice` does. */
  function TruncateLine(line: string, maxChars: int): string {
    if maxChars == 0 then [ELLIPSIS]
    else if |line| <= maxChars then line
    else line[..SliceEnd(|line|, maxChars - 1)] + [ELLIPSIS]
  }

  function SliceEnd(length: nat, end: int): (n: nat)
    ensures n <= length
  {
    if end >= 0 then (if end < length then end else length)
    else if length + end >= 0 then length + end
    else 0
  }

  // ----- normalising

  /** `kept` are the lines that remain, `removed` counts the repeated ones. */
  datatype Normalised = Normalised(kept: seq<string>, removed: nat)

  function Keys(lines: seq<string>, lower: string -> string): set<string> {
    set i | 0 <= i < |lines| :: lower(lines[i])
  }

  function NormaliseStep(n: Normalised, raw: string, maxLineChars: int, lower: string -> string): Normalised {
    var collapsed := CollapseInlineWhitespace(raw);
    var line := TruncateLine(collapsed, maxLineChars);
    if collapsed == "" then n
    else if lower(line) in Keys(n.kept, lower) then n.(removed := n.removed + 1)
    else n.(kept := n.kept + [line])
  }

  function Normalise(raws: seq<string>, maxLineChars: int, lower: string -> string): Normalised {
    if raws == [] then Normalised([], 0)
    else NormaliseStep(Normalise(raws[..|raws| - 1], maxLineChars, lower), raws[|raws| - 1], maxLineChars, lower)
  }

  // ----- compressing

  const OMITTED := "additional line(s) omitted."

  function Notice(omitted: nat): string {
    "- " + [ELLIPSIS] + " " + Digits(omitted) + " " + OMITTED
  }

  /** The selected lines, with the notice of the omitted ones when it fits. */
  function Output(kept: seq<string>, budget: Budget): seq<string> {
    var selected := Picked(kept, Selection(kept, budget));
    var omitted: int := |kept| - |selected|;
    if omitted > 0 && Within(selected + [Notice(omitted)], budget) then selected + [Notice(omitted)] else selected
  }

  function Compress(text: string, budget: Budget, maxLineChars: int, lower: string -> string): Compressed {
    var n := Normalise(SplitLines(text), maxLineChars, lower);
    if n.kept == [] || budget.chars == 0 || budget.lines == 0 then Compressed("", Trim(text) != "")
    else
      var selected := Picked(n.kept, Selection(n.kept, budget));
      var result := Join(Output(n.kept, budget), "\n");
      Compressed(result, n.removed > 0 || |n.kept| > |selected| || result != Trim(text))
  }

  /** Lower-casing is given. */
  method CompressSummary(text: string, options: Option<Options>, lower: string -> string) returns (r: Compressed)
    ensures var o := options.GetOr(Options(None, None, None));
            r == Compress(text, Budget(o.maxLines.GetOr(DEFAULT_MAX_LINES), o.maxChars.GetOr(DEFAULT_MAX_CHARS)),
                          o.maxLineChars.GetOr(DEFAULT_MAX_LINE_CHARS), lower)
  {
    hide Digits, Picked, Selection, JoinedCharCount, Trim, Words, SplitLines;
    var o := options.GetOr(Options(None, None, None));
    var maxChars := o.maxChars.GetOr(DEFAULT_MAX_CHARS);
    var maxLines := o.maxLines.GetOr(DEFAULT_MAX_LINES);
    var maxLineChars := o.maxLineChars.GetOr(DEFAULT_MAX_LINE_CHARS);
    var normalised, removedDupes := NormaliseLines(text, maxLineChars, lower);
    if |normalised| == 0 || maxChars == 0 || maxLines == 0 {
      return Compressed("", Trim(text) != "");
    }
    var selected := SelectLines(normalised, maxLines, maxChars);
    var omitted := |normalised| - |selected|;
    if omitted > 0 {
      var notice := Notice(omitted);
      if |selected| < maxLines && JoinedCharCount(selected + [notice]) <= maxChars {
        selected := selected + [notice];
      }
    }
    SelectedCount(normalised, Budget(maxLines, maxChars));
    var result := Join(selected, "\n");
    return Compressed(result, removedDupes > 0 || omitted > 0 || result != Trim(text));
  }

  method NormaliseLines(text: string, maxLineChars: int, lower: string -> string)
    returns (normalised: seq<string>, removedDupes: nat)
    ensures Normalised(normalised, removedDupes) == Normalise(SplitLines(text), maxLineChars, lower)
  {
    hide SplitLines, CollapseInlineWhitespace, TruncateLine;
    var seen: set<string> := {};
    normalised, removedDupes := [], 0;
    var raws := SplitLines(text);
    var i := 0;
    while i < |raws|
      invariant 0 <= i <= |raws|
      invariant Normalised(normalised, removedDupes) == Normalise(raws[..i], maxLineChars, lower)
      invariant seen == Keys(normalised, lower)
    {
      var raw := raws[i];
      assert raws[..i + 1][..i] == raws[..i];
      i := i + 1;
      var collapsed := CollapseInlineWhitespace(raw);
      if collapsed == "" {
        continue;
      }
      var truncatedLine := TruncateLine(collapsed, maxLineChars);
      var key := lower(truncatedLine);
      if key in seen {
        removedDupes := removedDupes + 1;
        continue;
      }
      seen := seen + {key};
      KeysSnoc(normalised, truncatedLine, lower);
      normalised := normalised + [truncatedLine];
    }
    assert raws[..i] == raws;
  }

  lemma KeysSnoc(lines: seq<string>, line: string, lower: string -> string)
    ensures Keys(lines + [line], lower) == Keys(lines, lower) + {lower(line)}
  {
    var all := lines + [line];
    forall key | key in Keys(lines, lower) + {lower(line)} ensures key in Keys(all, lower) {
      if key in Keys(lines, lower) {
        var i :| 0 <= i < |lines| && lower(lines[i]) == key;
        assert lower(all[i]) == key;
      } else {
        assert lower(all[|lines|]) == key;
      }
    }
  }

  lemma SelectedCount(kept: seq<string>, budget: Budget)
    ensures |Picked(kept, Selection(kept, budget))| <= |kept|
  {
    PickedAtMost(kept, Selection(kept, budget));
  }

  lemma {:induction false} PickedAtMost(kept: seq<string>, chosen: set<nat>)
    ensures |Picked(kept, chosen)| <= |kept|
    ensures forall l :: l in Picked(kept, chosen) ==> l in kept
  {
    if kept != [] {
      PickedAtMost(kept[..|kept| - 1], chosen);
    }
  }

  // ----- collapsed lines

  /** Single spaces between words, and nothing around them. */
  predicate Clean(line: string) {
    && line != "" && !IsJsSpace(line[0]) && !IsJsSpace(line[|line| - 1])
    && forall i :: 0 <= i < |line| && IsJsSpace(line[i]) ==> line[i] == ' ' && i + 1 < |line| && !IsJsSpace(line[i + 1])
  }

  predicate Solid(word: string) {
    word != "" && forall i :: 0 <= i < |word| ==> !IsJsSpace(word[i])
  }

  lemma {:induction false} WordsAreSolid(line: string)
    ensures forall i :: 0 <= i < |Words(line)| ==> Solid(Words(line)[i])
    ensures Words(line) == [] <==> forall i :: 0 <= i < |line| ==> IsJsSpace(line[i])
  {
    hide IsJsSpace;
    if line != "" {
      WordsAreSolid(line[1..]);
      assert forall i :: 0 < i < |line| ==> line[i] == line[1..][i - 1];
    }
  }

  lemma SpaceIsSpace()
    ensures IsJsSpace(' ') && IsJsSpace('\n') && !IsJsSpace(ELLIPSIS)
  {
  }

  lemma {:induction false} JoinedWordsAreClean(words: seq<string>)
    requires words != [] && forall i :: 0 <= i < |words| ==> Solid(words[i])
    ensures Clean(Join(words, " "))
  {
    hide IsJsSpace;
    SpaceIsSpace();
    assert Solid(words[0]);
    if |words| > 1 {
      JoinedWordsAreClean(words[1..]);
      CleanCons(words[0], Join(words[1..], " "));
      assert Join(words, " ") == words[0] + " " + Join(words[1..], " ");
    }
  }

  lemma CleanCons(word: string, rest: string)
    requires Solid(word) && Clean(rest)
    ensures Clean(word + " " + rest)
  {
    hide IsJsSpace;
    SpaceIsSpace();
    var line := word + " " + rest;
    var n := |word|;
    assert line[|line| - 1] == rest[|rest| - 1];
    forall i | 0 <= i < |line| && IsJsSpace(line[i])
      ensures line[i] == ' ' && i + 1 < |line| && !IsJsSpace(line[i + 1])
    {
      if i == n {
        assert line[i + 1] == rest[0];
      } else if i > n {
        assert line[i] == rest[i - n - 1];
      }
    }
  }

  /** Collapsing leaves nothing or single-spaced words. */
  lemma CollapsedIsClean(line: string)
    ensures CollapseInlineWhitespace(line) != "" ==> Clean(CollapseInlineWhitespace(line))
  {
    hide Clean, Solid, Words;
    WordsAreSolid(line);
    if Words(line) != [] {
      JoinedWordsAreClean(Words(line));
    }
  }

  /** Single-spaced words collapse to themselves. */
  lemma {:induction false} CleanCollapses(line: string)
    requires Clean(line)
    ensures CollapseInlineWhitespace(line) == line && Words(line) != []
    decreases |line|
  {
    hide IsJsSpace;
    SpaceIsSpace();
    var tail := line[1..];
    assert line == [line[0]] + tail;
    if |line| == 1 {
      assert tail == "" && Words(tail) == [];
      assert Words(line) == [[line[0]]];
    } else if !IsJsSpace(line[1]) {
      CleanTail(line);
      CleanCollapses(tail);
      var rest := Words(tail);
      JoinHead([line[0]], rest, " ");
    } else {
      assert line[1] == ' ';
      CleanTail(line);
      var after := line[2..];
      CleanCollapses(after);
      assert tail == [' '] + after && tail[1..] == after;
      assert Words(tail) == Words(after);
      assert Words(line) == [[line[0]]] + Words(after);
    }
  }

  lemma CleanTail(line: string)
    requires Clean(line) && |line| > 1
    ensures !IsJsSpace(line[1]) ==> Clean(line[1..])
    ensures IsJsSpace(line[1]) ==> |line| > 2 && Clean(line[2..])
  {
    hide IsJsSpace;
  }

  lemma JoinHead(prefix: string, parts: seq<string>, separator: string)
    requires parts != []
    ensures Join([prefix + parts[0]] + parts[1..], separator) == prefix + Join(parts, separator)
  {
    var all := [prefix + parts[0]] + parts[1..];
    assert all[1..] == parts[1..];
  }

  /** Truncation keeps a line clean and never lengthens it; with a limit of at least 0 it bounds it once and for all. */
  lemma TruncatedIsClean(line: string, maxChars: int)
    requires Clean(line)
    ensures Clean(TruncateLine(line, maxChars))
    ensures |TruncateLine(line, maxChars)| <= |line|
    ensures maxChars >= 0 ==>
              && |TruncateLine(line, maxChars)| <= (if maxChars == 0 then 1 else maxChars)
              && TruncateLine(TruncateLine(line, maxChars), maxChars) == TruncateLine(line, maxChars)
  {
    hide IsJsSpace;
    SpaceIsSpace();
    var t := TruncateLine(line, maxChars);
    if maxChars != 0 && maxChars < |line| {
      assert t[|t| - 1] == ELLIPSIS;
      forall i | 0 <= i < |t| && IsJsSpace(t[i]) ensures t[i] == ' ' && i + 1 < |t| && !IsJsSpace(t[i + 1]) {
        assert t[i] == line[i];
      }
    }
  }

  lemma CleanHasNoNewline(line: string)
    requires Clean(line)
    ensures '\n' !in line
  {
    SpaceIsSpace();
  }

  // ----- lines of a joined text

  /** Splitting undoes joining. */
  lemma {:induction false} SplitOfJoin(parts: seq<string>)
    requires parts != [] && forall i :: 0 <= i < |parts| ==> '\n' !in parts[i]
    ensures SplitLines(Join(parts, "\n")) == parts
  {
    if |parts| == 1 {
      SplitOfLine(parts[0]);
    } else {
      SplitOfJoin(parts[1..]);
      SplitCons(parts[0], Join(parts[1..], "\n"));
      assert Join(parts, "\n") == parts[0] + "\n" + Join(parts[1..], "\n");
    }
  }

  lemma {:induction false} SplitOfLine(line: string)
    requires '\n' !in line
    ensures SplitLines(line) == [line]
  {
    if line != "" {
      SplitOfLine(line[1..]);
      assert line == [line[0]] + line[1..];
    }
  }

  lemma {:induction false} SplitCons(line: string, rest: string)
    requires '\n' !in line
    ensures SplitLines(line + "\n" + rest) == [line] + SplitLines(rest)
  {
    var text := line + "\n" + rest;
    if line == "" {
      assert text[1..] == rest;
    } else {
      SplitCons(line[1..], rest);
      assert text[1..] == line[1..] + "\n" + rest;
      assert line == [line[0]] + line[1..];
      assert ([line[1..]] + SplitLines(rest))[1..] == SplitLines(rest);
    }
  }

  lemma {:induction false} JoinLength(parts: seq<string>)
    ensures |Join(parts, "\n")| == JoinedCharCount(parts)
  {
    if |parts| == 1 {
      assert parts[..0] == [] && Total(parts[..0]) == 0;
    } else if |parts| > 1 {
      JoinLength(parts[1..]);
      TotalCons(parts);
    }
  }

  lemma {:induction false} TotalCons(lines: seq<string>)
    requires lines != []
    ensures Total(lines) == |lines[0]| + Total(lines[1..])
  {
    var last := |lines| - 1;
    if last > 0 {
      TotalCons(lines[..last]);
      assert lines[..last][1..] == lines[1..][..last - 1];
    } else {
      assert lines[..0] == [] && lines[1..] == [];
    }
  }

  // ----- what normalising keeps

  /** The collapsed lines that hold any text. */
  function CollapsedLines(raws: seq<string>): seq<string> {
    if raws == [] then []
    else
      var c := CollapseInlineWhitespace(raws[|raws| - 1]);
      CollapsedLines(raws[..|raws| - 1]) + if c == "" then [] else [c]
  }

  predicate KeysDistinct(lines: seq<string>, lower: string -> string) {
    forall i, j :: 0 <= i < j < |lines| ==> lower(lines[i]) != lower(lines[j])
  }

  /** Within the line limit, and so unchanged by another truncation. */
  predicate Short(line: string, maxLineChars: int) {
    |line| <= (if maxLineChars == 0 then 1 else maxLineChars) && TruncateLine(line, maxLineChars) == line
  }

  /**
   * No two kept lines share a key, every kept line is a clean line within the bound, and every line with text is kept
   * under its key or counted as removed.
   */
  lemma {:induction false} NormaliseMeans(raws: seq<string>, maxLineChars: int, lower: string -> string)
    ensures var n := Normalise(raws, maxLineChars, lower);
            && KeysDistinct(n.kept, lower)
            && (forall l :: l in n.kept ==> Clean(l))
            && (maxLineChars >= 0 ==> forall l :: l in n.kept ==> Short(l, maxLineChars))
            && |CollapsedLines(raws)| == |n.kept| + n.removed
            && Keys(n.kept, lower) == set c | c in CollapsedLines(raws) :: lower(TruncateLine(c, maxLineChars))
  {
    hide CollapseInlineWhitespace, TruncateLine, Clean, Keys, KeysDistinct;
    if raws == [] {
      NothingKept(lower);
    } else {
      var front, raw := raws[..|raws| - 1], raws[|raws| - 1];
      NormaliseMeans(front, maxLineChars, lower);
      var n := Normalise(front, maxLineChars, lower);
      var c := CollapseInlineWhitespace(raw);
      if c != "" {
        var line := TruncateLine(c, maxLineChars);
        CollapsedIsClean(raw);
        TruncatedIsClean(c, maxLineChars);
        KeysSnoc(n.kept, line, lower);
        if lower(line) !in Keys(n.kept, lower) {
          NewKey(n.kept, line, lower);
        }
      }
    }
  }

  lemma NothingKept(lower: string -> string)
    ensures KeysDistinct([], lower) && Keys([], lower) == {}
  {
  }

  lemma NewKey(lines: seq<string>, line: string, lower: string -> string)
    requires KeysDistinct(lines, lower) && lower(line) !in Keys(lines, lower)
    ensures KeysDistinct(lines + [line], lower)
  {
    var all := lines + [line];
    forall i, j | 0 <= i < j < |all| ensures lower(all[i]) != lower(all[j]) {
      assert lower(lines[i]) in Keys(lines, lower);
    }
  }

  /** With nothing removed, the kept lines are the collapsed lines, truncated. */
  lemma {:induction false} NothingRemoved(raws: seq<string>, maxLineChars: int, lower: string -> string)
    requires Normalise(raws, maxLineChars, lower).removed == 0
    ensures var n := Normalise(raws, maxLineChars, lower);
            var c := CollapsedLines(raws);
            |n.kept| == |c| && forall i :: 0 <= i < |c| ==> n.kept[i] == TruncateLine(c[i], maxLineChars)
  {
    hide CollapseInlineWhitespace, TruncateLine, Keys;
    if raws != [] {
      NothingRemoved(raws[..|raws| - 1], maxLineChars, lower);
    }
  }

  // ----- trimming keeps the collapsed lines

  lemma {:induction false} CollapsedAppend(a: seq<string>, b: seq<string>)
    ensures CollapsedLines(a + b) == CollapsedLines(a) + CollapsedLines(b)
  {
    if b == [] {
      assert a + b == a;
    } else {
      var last := |b| - 1;
      assert (a + b)[..|a + b| - 1] == a + b[..last];
      CollapsedAppend(a, b[..last]);
    }
  }

  lemma CollapsedOne(line: string)
    ensures CollapsedLines([line])
            == if CollapseInlineWhitespace(line) == "" then [] else [CollapseInlineWhitespace(line)]
  {
    assert [line][..0] == [];
  }

  lemma {:induction false} WordsSnoc(line: string, c: char)
    requires IsJsSpace(c)
    ensures Words(line + [c]) == Words(line)
  {
    hide IsJsSpace;
    if line != "" {
      WordsSnoc(line[1..], c);
      assert (line + [c])[1..] == line[1..] + [c];
      if |line| == 1 {
        assert line[1..] == "" && Words(line[1..]) == [];
      }
    }
  }

  lemma WordsCons(c: char, line: string)
    requires IsJsSpace(c)
    ensures Words([c] + line) == Words(line)
  {
    assert ([c] + line)[1..] == line;
  }

  /** The lines of a text put behind `c`. */
  function Prepend(c: char, lines: seq<string>): seq<string>
    requires lines != []
  {
    if c == '\n' then [""] + lines else [[c] + lines[0]] + lines[1..]
  }

  /** The lines of a text put before `c`. */
  function Append(lines: seq<string>, c: char): (r: seq<string>)
    requires lines != []
    ensures r != []
  {
    var last := |lines| - 1;
    if c == '\n' then lines + [""] else lines[..last] + [lines[last] + [c]]
  }

  lemma PrependAppend(head: char, lines: seq<string>, c: char)
    requires lines != []
    ensures Prepend(head, lines) != [] && Prepend(head, Append(lines, c)) == Append(Prepend(head, lines), c)
  {
    var a, b := Prepend(head, Append(lines, c)), Append(Prepend(head, lines), c);
    assert [head] + (lines[0] + [c]) == [head] + lines[0] + [c];
    assert |a| == |b| && forall i :: 0 <= i < |a| ==> a[i] == b[i];
  }

  lemma {:induction false} SplitSnoc(text: string, c: char)
    ensures SplitLines(text + [c]) == Append(SplitLines(text), c)
  {
    var all := text + [c];
    if text == "" {
      assert all == [c] && all[1..] == "" && [c] + "" == "" + [c];
    } else {
      hide Append;
      assert all[1..] == text[1..] + [c];
      SplitSnoc(text[1..], c);
      PrependAppend(text[0], SplitLines(text[1..]), c);
      assert SplitLines(all) == Prepend(all[0], SplitLines(all[1..]));
      assert SplitLines(text) == Prepend(text[0], SplitLines(text[1..]));
    }
  }

  lemma CollapsedCons(text: string, c: char)
    requires IsJsSpace(c)
    ensures CollapsedLines(SplitLines([c] + text)) == CollapsedLines(SplitLines(text))
  {
    hide IsJsSpace, CollapsedLines, Words;
    var rest := SplitLines(text);
    assert ([c] + text)[1..] == text;
    if c == '\n' {
      CollapsedAppend([""], rest);
      BlankCollapses();
    } else {
      assert SplitLines([c] + text) == [[c] + rest[0]] + rest[1..];
      CollapsedAppend([[c] + rest[0]], rest[1..]);
      CollapsedAppend([rest[0]], rest[1..]);
      assert rest == [rest[0]] + rest[1..];
      WordsCons(c, rest[0]);
      CollapsedOne(rest[0]);
      CollapsedOne([c] + rest[0]);
    }
  }

  lemma BlankCollapses()
    ensures CollapsedLines([""]) == []
  {
    assert Words("") == [];
    CollapsedOne("");
  }

  lemma CollapsedSnoc(text: string, c: char)
    requires IsJsSpace(c)
    ensures CollapsedLines(SplitLines(text + [c])) == CollapsedLines(SplitLines(text))
  {
    hide IsJsSpace, CollapsedLines, Words, SplitLines;
    var before := SplitLines(text);
    SplitSnoc(text, c);
    if c == '\n' {
      CollapsedAppend(before, [""]);
      BlankCollapses();
    } else {
      var last := |before| - 1;
      CollapsedAppend(before[..last], [before[last] + [c]]);
      CollapsedAppend(before[..last], [before[last]]);
      assert before == before[..last] + [before[last]];
      WordsSnoc(before[last], c);
      CollapsedOne(before[last]);
      CollapsedOne(before[last] + [c]);
    }
  }

  lemma {:induction false} TrimKeepsCollapsed(text: string)
    ensures CollapsedLines(SplitLines(Trim(text))) == CollapsedLines(SplitLines(text))
    decreases |text|
  {
    hide IsJsSpace, CollapsedLines, SplitLines;
    if text != "" && IsJsSpace(text[0]) {
      TrimKeepsCollapsed(text[1..]);
      CollapsedCons(text[1..], text[0]);
      assert text == [text[0]] + text[1..];
    } else if text != "" && IsJsSpace(text[|text| - 1]) {
      var front := text[..|text| - 1];
      TrimKeepsCollapsed(front);
      CollapsedSnoc(front, text[|text| - 1]);
      assert text == front + [text[|text| - 1]];
    }
  }

  lemma {:induction false} CleanLinesCollapse(lines: seq<string>)
    requires forall l :: l in lines ==> Clean(l)
    ensures CollapsedLines(lines) == lines
  {
    hide Clean, CollapseInlineWhitespace;
    if lines != [] {
      var front, last := lines[..|lines| - 1], lines[|lines| - 1];
      CleanLinesCollapse(front);
      CleanCollapses(last);
      assert last != "" by { CleanIsText(last); }
      assert lines == front + [last];
    }
  }

  lemma CleanIsText(line: string)
    requires Clean(line)
    ensures line != ""
  {
  }

  // ----- the result

  lemma {:induction false} DigitsAreSolid(n: nat)
    ensures Solid(Digits(n))
  {
    if n >= 10 {
      DigitsAreSolid(n / 10);
      DigitIsNoSpace(n % 10);
    } else {
      DigitIsNoSpace(n);
    }
  }

  lemma DigitIsNoSpace(d: nat)
    requires d < 10
    ensures !IsJsSpace(DigitChar(d))
  {
  }

  lemma NoticeIsClean(omitted: nat)
    ensures Clean(Notice(omitted))
  {
    hide Digits, Clean, Solid, OMITTED, ELLIPSIS;
    var count := Digits(omitted);
    DigitsAreSolid(omitted);
    TailIsClean();
    MarksAreSolid();
    CleanCons(count, OMITTED);
    var rest := count + " " + OMITTED;
    CleanCons([ELLIPSIS], rest);
    CleanCons("-", [ELLIPSIS] + " " + rest);
    Regroup(count);
  }

  lemma Regroup(count: string)
    ensures "- " + [ELLIPSIS] + " " + count + " " + OMITTED == "-" + " " + ([ELLIPSIS] + " " + (count + " " + OMITTED))
  {
    hide OMITTED, ELLIPSIS;
  }

  lemma MarksAreSolid()
    ensures Solid([ELLIPSIS]) && Solid("-")
  {
  }

  lemma TailIsClean()
    ensures Clean(OMITTED)
  {
    var words := ["additional", "line(s)", "omitted."];
    assert Solid(words[0]) && Solid(words[1]) && Solid(words[2]);
    hide Clean, Solid;
    JoinedWordsAreClean(words);
    assert words[1..] == ["line(s)", "omitted."] && words[1..][1..] == ["omitted."];
    assert Join(words, " ") == OMITTED;
  }

  /** The lines of the output are clean and keep both budgets. */
  lemma OutputMeans(kept: seq<string>, budget: Budget)
    requires forall l :: l in kept ==> Clean(l)
    ensures Output(kept, budget) == [] || Within(Output(kept, budget), budget)
    ensures forall l :: l in Output(kept, budget) ==> Clean(l)
  {
    hide Picked, Selection, Clean, Within, Notice;
    var chosen := Selection(kept, budget);
    SelectionIsGreedy(kept, budget);
    GreedyKeepsBudgets(kept, budget, chosen);
    PickedAtMost(kept, chosen);
    if |kept| > |Picked(kept, chosen)| {
      NoticeIsClean(|kept| - |Picked(kept, chosen)|);
    }
  }

  lemma OutputLines(kept: seq<string>, budget: Budget)
    requires forall l :: l in kept ==> Clean(l)
    ensures var out := Output(kept, budget);
            && |Join(out, "\n")| == JoinedCharCount(out)
            && (out != [] ==> SplitLines(Join(out, "\n")) == out)
            && (out == [] ==> Join(out, "\n") == "")
  {
    hide Output, Clean, SplitLines, JoinedCharCount;
    OutputMeans(kept, budget);
    var out := Output(kept, budget);
    JoinLength(out);
    if out != [] {
      forall i | 0 <= i < |out| ensures '\n' !in out[i] {
        CleanHasNoNewline(out[i]);
      }
      SplitOfJoin(out);
    }
  }

  /** The compressed text, with the notice it may hold, keeps both budgets. */
  lemma CompressionKeepsBudgets(text: string, budget: Budget, maxLineChars: int, lower: string -> string)
    ensures var r := Compress(text, budget, maxLineChars, lower);
            r.text == "" || (|r.text| <= budget.chars && |SplitLines(r.text)| <= budget.lines)
  {
    hide Normalise, SplitLines, Output, Trim, Selection, Picked, Clean, KeysDistinct, Keys, JoinedCharCount;
    NormaliseMeans(SplitLines(text), maxLineChars, lower);
    var kept := Normalise(SplitLines(text), maxLineChars, lower).kept;
    OutputMeans(kept, budget);
    OutputLines(kept, budget);
  }

  // ----- the flag

  lemma ShorterFits(selected: seq<string>, a: string, b: string, budget: Budget)
    requires |a| <= |b| && Within(selected + [b], budget)
    ensures Within(selected + [a], budget)
  {
    TotalSnoc(selected, a);
    TotalSnoc(selected, b);
  }

  lemma {:induction false} TotalPointwise(a: seq<string>, b: seq<string>)
    requires |a| == |b| && forall i :: 0 <= i < |a| ==> |a[i]| <= |b[i]|
    ensures Total(a) <= Total(b)
  {
    if a != [] {
      TotalPointwise(a[..|a| - 1], b[..|b| - 1]);
    }
  }

  lemma SomeOmitted(kept: seq<string>, chosen: set<nat>) returns (p: nat)
    requires |Picked(kept, chosen)| < |kept|
    ensures p < |kept| && p !in chosen
  {
    if forall k: nat :: k < |kept| ==> k in chosen {
      PickedAll(kept, chosen);
    }
    p :| p < |kept| && p !in chosen;
  }

  /** Where the notice stands for the one omitted line, some kept line is longer than the output line at its place. */
  lemma NoticeReplacesNothing(kept: seq<string>, budget: Budget, notice: string)
    requires var selected := Picked(kept, Selection(kept, budget));
             |kept| == |selected| + 1 && Within(selected + [notice], budget)
    ensures exists i :: 0 <= i < |kept| && |kept[i]| > |(Picked(kept, Selection(kept, budget)) + [notice])[i]|
  {
    hide Selection, Within, Picked;
    var chosen := Selection(kept, budget);
    var selected := Picked(kept, chosen);
    if forall i :: 0 <= i < |kept| ==> |kept[i]| <= |(selected + [notice])[i]| {
      TotalPointwise(kept, selected + [notice]);
      var p := SomeOmitted(kept, chosen);
      PickedAdd(kept, chosen, p);
      PickedFull(kept, chosen + {p});
      TotalSnoc(selected, notice);
      ShorterFits(selected, kept[p], notice, budget);
      SelectionIsGreedy(kept, budget);
      GreedyIsMaximal(kept, budget, chosen, p);
    }
  }

  lemma OmittedNothing(kept: seq<string>, removed: nat, budget: Budget)
    requires |Output(kept, budget)| == |kept| + removed
    requires removed == 0 ==> forall i :: 0 <= i < |kept| ==> |kept[i]| <= |Output(kept, budget)[i]|
    ensures removed == 0 && |Picked(kept, Selection(kept, budget))| == |kept|
  {
    hide Picked, Selection, Within, Notice;
    var selected := Picked(kept, Selection(kept, budget));
    SelectedCount(kept, budget);
    if |selected| < |kept| {
      NoticeReplacesNothing(kept, budget, Notice(|kept| - |selected|));
    }
  }

  /** A compression that gives back the trimmed text dropped nothing. */
  lemma SameTextDropsNothing(text: string, budget: Budget, maxLineChars: int, lower: string -> string)
    requires var n := Normalise(SplitLines(text), maxLineChars, lower);
             n.kept != [] && Join(Output(n.kept, budget), "\n") == Trim(text)
    ensures var n := Normalise(SplitLines(text), maxLineChars, lower);
            n.removed == 0 && |Picked(n.kept, Selection(n.kept, budget))| == |n.kept|
  {
    hide Normalise, SplitLines, Output, Trim, Selection, Picked, Clean, KeysDistinct, Keys, TruncateLine;
    hide CollapsedLines, Within;
    var raws := SplitLines(text);
    var n := Normalise(raws, maxLineChars, lower);
    var out := Output(n.kept, budget);
    NormaliseMeans(raws, maxLineChars, lower);
    OutputMeans(n.kept, budget);
    OutputLines(n.kept, budget);
    TrimKeepsCollapsed(text);
    if out == [] {
      EmptyTextCollapses();
    } else {
      CleanLinesCollapse(out);
      if n.removed == 0 {
        NothingRemoved(raws, maxLineChars, lower);
        forall i | 0 <= i < |n.kept| ensures |n.kept[i]| <= |out[i]| {
          assert n.kept[i] == TruncateLine(out[i], maxLineChars);
          TruncatedIsClean(out[i], maxLineChars);
        }
      }
      OmittedNothing(n.kept, n.removed, budget);
    }
  }

  lemma EmptyTextCollapses()
    ensures CollapsedLines(SplitLines("")) == []
  {
    BlankCollapses();
  }

  /** The flag is set exactly when the result differs from the trimmed text: the two counters add nothing to it. */
  lemma TruncatedExactly(text: string, budget: Budget, maxLineChars: int, lower: string -> string)
    ensures var r := Compress(text, budget, maxLineChars, lower);
            r.truncated <==> r.text != Trim(text)
  {
    hide Normalise, SplitLines, Output, Trim, Selection, Picked;
    var n := Normalise(SplitLines(text), maxLineChars, lower);
    if n.kept != [] && Join(Output(n.kept, budget), "\n") == Trim(text) {
      SameTextDropsNothing(text, budget, maxLineChars, lower);
    }
  }

  // ----- text that is already compressed

  lemma {:induction false} NormaliseKeeps(lines: seq<string>, maxLineChars: int, lower: string -> string)
    requires KeysDistinct(lines, lower)
    requires forall l :: l in lines ==> Clean(l) && TruncateLine(l, maxLineChars) == l
    ensures Normalise(lines, maxLineChars, lower) == Normalised(lines, 0)
  {
    hide Clean, TruncateLine, CollapseInlineWhitespace;
    if lines != [] {
      var front, last := lines[..|lines| - 1], lines[|lines| - 1];
      NormaliseKeeps(front, maxLineChars, lower);
      CleanCollapses(last);
      CleanIsText(last);
      assert lines == front + [last];
      assert lower(last) !in Keys(front, lower);
    }
  }

  lemma {:induction false} PickedAll(lines: seq<string>, chosen: set<nat>)
    requires forall k: nat :: k < |lines| ==> k in chosen
    ensures Picked(lines, chosen) == lines
  {
    if lines != [] {
      PickedAll(lines[..|lines| - 1], chosen);
    }
  }

  function Indices(n: nat): (r: set<nat>)
    ensures forall k: nat :: k < n ==> k in r
  {
    if n == 0 then {} else Indices(n - 1) + {n - 1}
  }

  /** Lines that keep both budgets are all selected. */
  lemma AllSelected(lines: seq<string>, budget: Budget)
    requires Within(lines, budget)
    ensures Picked(lines, Selection(lines, budget)) == lines
  {
    hide Selection, Picked, LinePriority, Fits;
    var chosen := Selection(lines, budget);
    SelectionIsGreedy(lines, budget);
    forall k: nat | k < |lines| ensures k in chosen {
      if k !in chosen {
        GreedyIsMaximal(lines, budget, chosen, k);
        var every := chosen + {k} + Indices(|lines|);
        PickedAll(lines, every);
        PickedGrows(lines, chosen + {k}, every);
        JoinedGrows(Picked(lines, chosen + {k}), lines);
      }
    }
    PickedAll(lines, chosen);
  }

  lemma JoinedGrows(a: seq<string>, b: seq<string>)
    requires |a| <= |b| && Total(a) <= Total(b)
    ensures JoinedCharCount(a) <= JoinedCharCount(b)
  {
  }

  lemma FittingTextIsKept(lines: seq<string>, budget: Budget, maxLineChars: int, lower: string -> string)
    requires lines != [] && KeysDistinct(lines, lower) && Within(lines, budget)
    requires forall l :: l in lines ==> Clean(l) && TruncateLine(l, maxLineChars) == l
    ensures var text := Join(lines, "\n");
            Compress(text, budget, maxLineChars, lower) == Compressed(text, false)
  {
    hide Clean, TruncateLine, SplitLines, Normalise, KeysDistinct, Selection, Picked, Trim, JoinedCharCount;
    CleanTextReads(lines);
    NormaliseKeeps(lines, maxLineChars, lower);
    AllSelected(lines, budget);
    JoinLength(lines);
  }

  lemma CleanTextReads(lines: seq<string>)
    requires lines != [] && forall l :: l in lines ==> Clean(l)
    ensures var text := Join(lines, "\n");
            text != "" && SplitLines(text) == lines && Trim(text) == text
  {
    hide Clean, SplitLines, Trim, Join;
    forall i | 0 <= i < |lines| ensures '\n' !in lines[i] {
      CleanHasNoNewline(lines[i]);
    }
    SplitOfJoin(lines);
    JoinedEnds(lines);
    TrimIdle(Join(lines, "\n"));
  }

  lemma {:induction false} PickedFull(lines: seq<string>, chosen: set<nat>)
    requires |Picked(lines, chosen)| == |lines|
    ensures Picked(lines, chosen) == lines
  {
    if lines != [] {
      PickedAtMost(lines[..|lines| - 1], chosen);
      PickedFull(lines[..|lines| - 1], chosen);
    }
  }

  lemma KeptTextFits(lines: seq<string>, budget: Budget, maxLineChars: int, lower: string -> string)
    requires lines != [] && forall l :: l in lines ==> Clean(l)
    requires Compress(Join(lines, "\n"), budget, maxLineChars, lower).text == Join(lines, "\n")
    ensures Normalise(lines, maxLineChars, lower).kept == lines
    ensures forall l :: l in lines ==> TruncateLine(l, maxLineChars) == l
  {
    hide CollapsedLines, Clean, TruncateLine, SplitLines, Normalise, Output, KeysDistinct, Keys, Selection, Picked;
    hide Trim, JoinedCharCount, Within;
    var text := Join(lines, "\n");
    CleanTextReads(lines);
    var n := Normalise(lines, maxLineChars, lower);
    SameTextDropsNothing(text, budget, maxLineChars, lower);
    NormaliseMeans(lines, maxLineChars, lower);
    OutputLines(n.kept, budget);
    PickedFull(n.kept, Selection(n.kept, budget));
    NothingOmitted(n.kept, budget);
    NothingRemoved(lines, maxLineChars, lower);
    CleanLinesCollapse(lines);
  }

  lemma NothingOmitted(kept: seq<string>, budget: Budget)
    requires Picked(kept, Selection(kept, budget)) == kept
    ensures Output(kept, budget) == kept
  {
  }

  /**
   * A text of clean lines within both budgets compresses to itself exactly when no two of its lines share a key and
   * none is too long.
   */
  lemma KeptExactly(lines: seq<string>, budget: Budget, maxLineChars: int, lower: string -> string)
    requires lines != [] && Within(lines, budget) && forall l :: l in lines ==> Clean(l)
    ensures var text := Join(lines, "\n");
            Compress(text, budget, maxLineChars, lower).text == text
            <==> KeysDistinct(lines, lower) && forall l :: l in lines ==> TruncateLine(l, maxLineChars) == l
  {
    hide Clean, TruncateLine, KeysDistinct, Keys, Within, Normalise, Compress, CollapsedLines, Join;
    if KeysDistinct(lines, lower) && forall l :: l in lines ==> TruncateLine(l, maxLineChars) == l {
      FittingTextIsKept(lines, budget, maxLineChars, lower);
    }
    if Compress(Join(lines, "\n"), budget, maxLineChars, lower).text == Join(lines, "\n") {
      KeptTextFits(lines, budget, maxLineChars, lower);
      NormaliseMeans(lines, maxLineChars, lower);
    }
  }

  lemma {:induction false} PickedKeys(lines: seq<string>, chosen: set<nat>, lower: string -> string)
    requires KeysDistinct(lines, lower)
    ensures KeysDistinct(Picked(lines, chosen), lower)
  {
    if lines != [] {
      var front, last := lines[..|lines| - 1], lines[|lines| - 1];
      PickedKeys(front, chosen, lower);
      PickedAtMost(front, chosen);
      var picked := Picked(front, chosen);
      forall i | 0 <= i < |picked| ensures lower(picked[i]) != lower(last) {
        assert picked[i] in front;
        var k :| 0 <= k < |front| && front[k] == picked[i];
        assert lines[k] == front[k];
      }
    }
  }

  lemma KeysDistinctSnoc(lines: seq<string>, line: string, lower: string -> string)
    requires KeysDistinct(lines, lower)
    ensures KeysDistinct(lines + [line], lower) <==> lower(line) !in Keys(lines, lower)
  {
    if lower(line) in Keys(lines, lower) {
      var i :| 0 <= i < |lines| && lower(lines[i]) == lower(line);
      assert (lines + [line])[i] == lines[i] && (lines + [line])[|lines|] == line;
    } else {
      NewKey(lines, line, lower);
    }
  }

  /**
   * Compressing again changes nothing exactly when truncation leaves the output lines alone and no notice was added
   * whose key is that of a selected line. With a line limit of at least 0 only the notice can be too long.
   */
  lemma CompressingAgainExactly(text: string, budget: Budget, maxLineChars: int, lower: string -> string)
    requires Compress(text, budget, maxLineChars, lower).text != ""
    ensures var once := Compress(text, budget, maxLineChars, lower).text;
            var kept := Normalise(SplitLines(text), maxLineChars, lower).kept;
            var selected := Picked(kept, Selection(kept, budget));
            && |selected| <= |kept|
            && var notice := Notice(|kept| - |selected|);
            Compress(once, budget, maxLineChars, lower).text == once
            <==> (forall l :: l in Output(kept, budget) ==> TruncateLine(l, maxLineChars) == l)
                 && (Output(kept, budget) == selected || lower(notice) !in Keys(selected, lower))
    ensures var kept := Normalise(SplitLines(text), maxLineChars, lower).kept;
            maxLineChars >= 0 ==>
              forall l :: l in Picked(kept, Selection(kept, budget)) ==> TruncateLine(l, maxLineChars) == l
  {
    hide Clean, TruncateLine, KeysDistinct, Keys, Within, Normalise, Selection, Picked, SplitLines, Notice;
    hide CollapsedLines, Trim, Join;
    var n := Normalise(SplitLines(text), maxLineChars, lower);
    var out := Output(n.kept, budget);
    var selected := Picked(n.kept, Selection(n.kept, budget));
    SelectedCount(n.kept, budget);
    NormaliseMeans(SplitLines(text), maxLineChars, lower);
    OutputMeans(n.kept, budget);
    OutputLines(n.kept, budget);
    PickedKeys(n.kept, Selection(n.kept, budget), lower);
    PickedAtMost(n.kept, Selection(n.kept, budget));
    AgainCompresses(text, budget, maxLineChars, lower);
    KeptExactly(out, budget, maxLineChars, lower);
    KeysDistinctSnoc(selected, Notice(|n.kept| - |selected|), lower);
  }

  lemma AgainCompresses(text: string, budget: Budget, maxLineChars: int, lower: string -> string)
    requires Compress(text, budget, maxLineChars, lower).text != ""
    ensures var n := Normalise(SplitLines(text), maxLineChars, lower);
            Compress(text, budget, maxLineChars, lower).text == Join(Output(n.kept, budget), "\n")
            && Output(n.kept, budget) != []
  {
    hide Normalise, Output, SplitLines, Trim, Picked, Selection;
  }

  /** A joined text of clean lines neither starts nor ends with whitespace. */
  lemma {:induction false} JoinedEnds(lines: seq<string>)
    requires lines != [] && forall l :: l in lines ==> Clean(l)
    ensures var text := Join(lines, "\n"); text != "" && !IsJsSpace(text[0]) && !IsJsSpace(text[|text| - 1])
  {
    hide IsJsSpace;
    assert Clean(lines[0]);
    if |lines| > 1 {
      var rest := Join(lines[1..], "\n");
      JoinedEnds(lines[1..]);
      var text := Join(lines, "\n");
      assert text == lines[0] + "\n" + rest;
      assert text[|text| - 1] == rest[|rest| - 1];
    }
  }

  lemma TrimIdle(text: string)
    requires text != "" && !IsJsSpace(text[0]) && !IsJsSpace(text[|text| - 1])
    ensures Trim(text) == text
  {
  }

  // ----- which repeated lines go: all of them, not only consecutive ones

  /** The truncated lines with text, before any repeated one is dropped. */
  function Truncated(raws: seq<string>, maxLineChars: int): seq<string> {
    if raws == [] then []
    else
      var c := CollapseInlineWhitespace(raws[|raws| - 1]);
      Truncated(raws[..|raws| - 1], maxLineChars) + if c == "" then [] else [TruncateLine(c, maxLineChars)]
  }

  /** The first line of every key. */
  function Firsts(lines: seq<string>, lower: string -> string): seq<string> {
    if lines == [] then []
    else
      var front, last := lines[..|lines| - 1], lines[|lines| - 1];
      Firsts(front, lower) + if lower(last) in Keys(front, lower) then [] else [last]
  }

  /** What a pass over consecutive lines would keep: a line goes only when the line before it has its key. */
  function WithoutRuns(lines: seq<string>, lower: string -> string): seq<string> {
    if lines == [] then []
    else
      var n := |lines| - 1;
      WithoutRuns(lines[..n], lower) + if n > 0 && lower(lines[n - 1]) == lower(lines[n]) then [] else [lines[n]]
  }

  /** A key comes back after a line with another key. */
  ghost predicate Returns(lines: seq<string>, lower: string -> string) {
    exists i, j, k :: ReturnsAt(lines, lower, i, j, k)
  }

  ghost predicate ReturnsAt(lines: seq<string>, lower: string -> string, i: int, j: int, k: int) {
    0 <= i < j < k < |lines| && lower(lines[i]) == lower(lines[k]) && lower(lines[j]) != lower(lines[k])
  }

  lemma {:induction false} NormaliseKeepsFirsts(raws: seq<string>, maxLineChars: int, lower: string -> string)
    ensures var lines := Truncated(raws, maxLineChars);
            var kept := Normalise(raws, maxLineChars, lower).kept;
            kept == Firsts(lines, lower) && Keys(kept, lower) == Keys(lines, lower)
  {
    hide CollapseInlineWhitespace, TruncateLine, Keys;
    if raws != [] {
      var front := raws[..|raws| - 1];
      NormaliseKeepsFirsts(front, maxLineChars, lower);
      var c := CollapseInlineWhitespace(raws[|raws| - 1]);
      var lines := Truncated(front, maxLineChars);
      if c == "" {
        assert lines + [] == lines;
      } else {
        var line := TruncateLine(c, maxLineChars);
        assert (lines + [line])[..|lines|] == lines;
        assert Firsts(lines, lower) + [] == Firsts(lines, lower);
        KeysSnoc(lines, line, lower);
        KeysSnoc(Firsts(lines, lower), line, lower);
      }
    }
  }

  lemma StillReturns(front: seq<string>, e: string, lower: string -> string)
    requires Returns(front, lower)
    ensures Returns(front + [e], lower)
  {
    var i, j, k :| ReturnsAt(front, lower, i, j, k);
    assert ReturnsAt(front + [e], lower, i, j, k);
  }

  lemma NowReturns(front: seq<string>, e: string, lower: string -> string)
    requires front != [] && lower(e) in Keys(front, lower) && lower(front[|front| - 1]) != lower(e)
    ensures Returns(front + [e], lower)
  {
    var i :| 0 <= i < |front| && lower(front[i]) == lower(e);
    assert ReturnsAt(front + [e], lower, i, |front| - 1, |front|);
  }

  lemma ReturnedBefore(front: seq<string>, e: string, lower: string -> string)
    requires Returns(front + [e], lower)
    requires lower(e) !in Keys(front, lower) || (front != [] && lower(front[|front| - 1]) == lower(e))
    ensures Returns(front, lower)
  {
    var all := front + [e];
    var i, j, k :| ReturnsAt(all, lower, i, j, k);
    assert all[i] == front[i] && all[j] == front[j];
    if k == |front| {
      assert lower(front[i]) in Keys(front, lower);
      assert ReturnsAt(front, lower, i, j, |front| - 1);
    } else {
      assert ReturnsAt(front, lower, i, j, k);
    }
  }

  /** Keeping first lines keeps fewer lines than a consecutive pass once a key returns, and the same ones until then. */
  lemma {:induction false} FirstsAgainstRuns(lines: seq<string>, lower: string -> string)
    ensures |Firsts(lines, lower)| <= |WithoutRuns(lines, lower)|
    ensures Returns(lines, lower) ==> |Firsts(lines, lower)| < |WithoutRuns(lines, lower)|
    ensures !Returns(lines, lower) ==> Firsts(lines, lower) == WithoutRuns(lines, lower)
  {
    hide Keys, Returns;
    if lines == [] {
      NothingReturns(lower);
    } else {
      var front, e := lines[..|lines| - 1], lines[|lines| - 1];
      assert lines == front + [e];
      FirstsAgainstRuns(front, lower);
      if front == [] {
        NoKeys(lower);
      } else {
        KeyOfLast(front, lower);
      }
      if Returns(front, lower) {
        StillReturns(front, e, lower);
      }
      if lower(e) in Keys(front, lower) && front != [] && lower(front[|front| - 1]) != lower(e) {
        NowReturns(front, e, lower);
      } else if Returns(lines, lower) {
        ReturnedBefore(front, e, lower);
      }
      assert Firsts(front, lower) + [] == Firsts(front, lower);
      assert WithoutRuns(front, lower) + [] == WithoutRuns(front, lower);
    }
  }

  lemma NothingReturns(lower: string -> string)
    ensures !Returns([], lower)
  {
  }

  lemma NoKeys(lower: string -> string)
    ensures Keys([], lower) == {}
  {
  }

  lemma KeyOfLast(lines: seq<string>, lower: string -> string)
    requires lines != []
    ensures lower(lines[|lines| - 1]) in Keys(lines, lower)
  {
  }

  /** The documented law, that repeated lines go when consecutive, holds of a text exactly when no key returns in it. */
  lemma ConsecutiveExactly(raws: seq<string>, maxLineChars: int, lower: string -> string)
    ensures var lines := Truncated(raws, maxLineChars);
            Normalise(raws, maxLineChars, lower).kept == WithoutRuns(lines, lower) <==> !Returns(lines, lower)
  {
    NormaliseKeepsFirsts(raws, maxLineChars, lower);
    FirstsAgainstRuns(Truncated(raws, maxLineChars), lower);
  }

  /** Lines a, b, a with two keys: the last goes, though no two consecutive lines are alike. */
  lemma SeparatedRepeatGoes(a: string, b: string, maxLineChars: int, lower: string -> string)
    requires Clean(a) && Clean(b) && lower(a) != lower(b)
    requires TruncateLine(a, maxLineChars) == a && TruncateLine(b, maxLineChars) == b
    ensures SplitLines(Join([a, b, a], "\n")) == [a, b, a]
    ensures Normalise([a, b, a], maxLineChars, lower) == Normalised([a, b], 1)
    ensures WithoutRuns([a, b, a], lower) == [a, b, a]
  {
    hide Clean, TruncateLine, CollapseInlineWhitespace, SplitLines, Normalise, WithoutRuns;
    CleanTextReads([a, b, a]);
    var ab := [a, b];
    assert [a, b, a] == ab + [a] && ab == [a] + [b] && [a] == [] + [a];
    ABNormalises(a, b, maxLineChars, lower);
    CleanCollapses(a);
    CleanIsText(a);
    NormaliseNext(ab, a, maxLineChars, lower);
    assert lower(ab[0]) in Keys(ab, lower);
    RunsNext([], a, lower);
    RunsNext([a], b, lower);
    RunsNext(ab, a, lower);
  }

  lemma ABNormalises(a: string, b: string, maxLineChars: int, lower: string -> string)
    requires Clean(a) && Clean(b) && lower(a) != lower(b)
    requires TruncateLine(a, maxLineChars) == a && TruncateLine(b, maxLineChars) == b
    ensures Normalise([a, b], maxLineChars, lower) == Normalised([a, b], 0)
  {
    NormaliseKeeps([a, b], maxLineChars, lower);
  }

  lemma RunsNext(lines: seq<string>, e: string, lower: string -> string)
    ensures WithoutRuns([], lower) == []
    ensures WithoutRuns(lines + [e], lower)
            == WithoutRuns(lines, lower)
               + if lines != [] && lower(lines[|lines| - 1]) == lower(e) then [] else [e]
  {
    assert (lines + [e])[..|lines|] == lines;
  }

  lemma NormaliseNext(raws: seq<string>, raw: string, maxLineChars: int, lower: string -> string)
    ensures Normalise(raws + [raw], maxLineChars, lower)
            == NormaliseStep(Normalise(raws, maxLineChars, lower), raw, maxLineChars, lower)
  {
    hide NormaliseStep;
    assert (raws + [raw])[..|raws|] == raws;
  }

  // ----- words, and the notice

  /** Whitespace separates words, however much of it; a run without whitespace is one word. */
  lemma {:induction false} WordsExactly(left: string, c: char, right: string)
    requires IsJsSpace(c)
    ensures Words(left + [c] + right) == Words(left) + Words(right)
  {
    hide IsJsSpace;
    var all := left + [c] + right;
    if left == "" {
      assert all == [c] + right;
      WordsCons(c, right);
      assert Words("") == [] && [] + Words(right) == Words(right);
    } else {
      var tail := left[1..];
      WordsExactly(tail, c, right);
      assert all[1..] == tail + [c] + right && all[0] == left[0];
      if !IsJsSpace(left[0]) {
        if tail == "" {
          assert all[1] == c && Words(tail) == [];
        } else {
          assert all[1] == tail[0];
          WordsStart(tail);
        }
      }
    }
  }

  lemma {:induction false} WordsStart(line: string)
    requires line != ""
    ensures !IsJsSpace(line[0]) ==> Words(line) != []
  {
  }

  lemma {:induction false} SolidIsOneWord(word: string)
    requires Solid(word)
    ensures Words(word) == [word] && Words("") == []
  {
    hide IsJsSpace;
    if |word| > 1 {
      SolidIsOneWord(word[1..]);
      assert word == [word[0]] + word[1..];
    } else {
      assert word[1..] == "" && word == [word[0]];
    }
  }

  /** Within a limit a line stays; over a positive one its first characters stay, with an ellipsis as the last. */
  lemma TruncatesExactly(line: string, maxChars: int)
    ensures |line| <= maxChars && maxChars != 0 ==> TruncateLine(line, maxChars) == line
    ensures 0 < maxChars < |line| ==>
              var t := TruncateLine(line, maxChars);
              |t| == maxChars && t[maxChars - 1] == '\U{2026}' && forall i :: 0 <= i < maxChars - 1 ==> t[i] == line[i]
    ensures maxChars == 0 ==> TruncateLine(line, maxChars) == ['\U{2026}']
  {
  }

  /** Reading a decimal number. */
  function ValueOf(digits: string): int {
    if digits == "" then 0
    else ValueOf(digits[..|digits| - 1]) * 10 + (digits[|digits| - 1] as int - '0' as int)
  }

  lemma {:induction false} DigitsReadBack(n: nat)
    ensures ValueOf(Digits(n)) == n && Digits(n) != ""
  {
    if n >= 10 {
      DigitsReadBack(n / 10);
      DigitReads(n % 10);
      var front, last := Digits(n / 10), [DigitChar(n % 10)];
      assert (front + last)[..|front|] == front;
    } else {
      DigitReads(n);
      assert [DigitChar(n)][..0] == "";
    }
  }

  lemma DigitReads(d: nat)
    requires d < 10
    ensures DigitChar(d) as int - '0' as int == d
  {
  }

  /** The notice names the number of omitted lines, which reads back. */
  lemma NoticeMeans(omitted: nat)
    ensures exists digits: string ::
              ValueOf(digits) == omitted
              && Notice(omitted) == "- " + ['\U{2026}'] + " " + digits + " " + "additional line(s) omitted."
  {
    hide Digits, ValueOf;
    DigitsReadBack(omitted);
  }

  /**
   * The result's lines: the selected ones, and behind them a notice of how many were left out when some were and the
   * notice still fits both budgets.
   */
  lemma ResultMeans(text: string, budget: Budget, maxLineChars: int, lower: string -> string)
    requires budget.lines > 0 && budget.chars > 0
    ensures var kept := Normalise(SplitLines(text), maxLineChars, lower).kept;
            var selected := Picked(kept, Selection(kept, budget));
            var result := Compress(text, budget, maxLineChars, lower).text;
            && |selected| <= |kept|
            && var noticed := selected + [Notice(|kept| - |selected|)];
               result == if |selected| < |kept| && |noticed| <= budget.lines && |Join(noticed, "\n")| <= budget.chars
                         then Join(noticed, "\n") else Join(selected, "\n")
  {
    hide Normalise, SplitLines, Trim, Picked, Selection, Notice, JoinedCharCount;
    var kept := Normalise(SplitLines(text), maxLineChars, lower).kept;
    var selected := Picked(kept, Selection(kept, budget));
    SelectedCount(kept, budget);
    JoinLength(selected + [Notice(|kept| - |selected|)]);
    if kept == [] {
      assert selected == [];
    }
  }
}
