/**
 What parseMarkdown reads, in terms of the characters of the lines alone: the form of every kind of line, the block that
 stands on a range of lines, and a text that begins with a fenced block.
 */
module BlockGrammar {
  import opened Options
  import opened JsText
  import CustomEmoji
  import InlineMarkdown
  import opened InlineGrammar
  import opened MarkdownLines
  import opened BlockMarkdown

  // ---- Lines ----

  /** Three backquotes, a language or nothing, white space. */
  ghost predicate FenceText(line: string, language: string) {
    Only(language, Alphanumerics + "_+-") && exists w :: White(w) && line == "```" + language + w
  }

  ghost predicate Fence(line: string) { exists language :: FenceText(line, language) }

  ghost predicate BareFence(line: string) {
    exists w :: White(w) && line == "```" + w
  }

  ghost predicate Marks(marks: string) { 1 <= |marks| <= 3 && Only(marks, "#") }

  /** One to three marks and white space. */
  ghost predicate HeadingStart(line: string) {
    exists marks, w, rest :: Marks(marks) && w != "" && White(w) && line == marks + w + rest
  }

  /** Marks, white space, and a text of at least one character without line terminators that begins with white space
      only if it is nothing else. */
  ghost predicate HeadingText(line: string, level: nat, text: string) {
    && text != "" && Free(text, Terminators) && (IsSpace(text[0]) ==> |text| == 1)
    && exists marks, w :: Marks(marks) && |marks| == level && w != "" && White(w) && line == marks + w + text
  }

  ghost predicate Begins(rest: string) { rest == "" || !IsSpace(rest[0]) }

  /** The mark and one character of white space, if there is any. */
  ghost predicate QuoteText(line: string, rest: string) {
    || (line == ">" + rest && Begins(rest))
    || exists c | IsSpace(c) :: line == ">" + [c] + rest
  }

  ghost predicate BulletText(line: string, rest: string) {
    && Begins(rest)
    && exists indent, w, mark | mark in {"-", "*"} ::
         White(indent) && w != "" && White(w) && line == indent + mark + w + rest
  }

  ghost predicate NumberText(line: string, rest: string) {
    && Begins(rest)
    && exists indent, number, w ::
         && White(indent) && number != "" && Only(number, Digits) && w != "" && White(w)
         && line == indent + number + "." + w + rest
  }

  lemma BlankIff(line: string)
    ensures IsBlank(line) <==> White(line)
  {
    if White(line) {
      CustomEmoji.RunOf(line, "", IsSpace);
      assert line + "" == line;
    }
  }

  lemma FenceEndIff(line: string)
    ensures IsFenceEnd(line) <==> BareFence(line)
  {
    if IsFenceEnd(line) {
      assert White(line[3..]) && line == "```" + line[3..];
    }
    if BareFence(line) {
      var w :| White(w) && line == "```" + w;
      assert line[3..] == w;
    }
  }

  /** No character of a language is white space. */
  lemma LanguageSolid(c: char)
    ensures IsSpace(c) ==> !InlineMarkdown.IsLanguageChar(c)
  {
  }

  lemma FenceSound(line: string)
    requires FenceLanguage(line).Some?
    ensures FenceText(line, FenceLanguage(line).value)
  {
    var language := FenceLanguage(line).value;
    var w := line[3..][|language|..];
    LanguageIff(language);
    assert White(w) && line == "```" + language + w;
  }

  lemma FenceComplete(line: string, language: string)
    requires FenceText(line, language)
    ensures FenceLanguage(line) == Some(language)
  {
    var w :| White(w) && line == "```" + language + w;
    assert line[3..] == language + w;
    LanguageIff(language);
    if w != "" { LanguageSolid(w[0]); }
    CustomEmoji.RunOf(language, w, InlineMarkdown.IsLanguageChar);
    assert (language + w)[..|language|] == language && (language + w)[|language|..] == w;
  }

  lemma FenceIff(line: string, language: string)
    ensures FenceLanguage(line) == Some(language) <==> FenceText(line, language)
  {
    if FenceLanguage(line) == Some(language) { FenceSound(line); }
    if FenceText(line, language) { FenceComplete(line, language); }
  }

  lemma QuoteIff(line: string, rest: string)
    ensures QuoteRest(line) == Some(rest) <==> QuoteText(line, rest)
  {
    if QuoteRest(line) == Some(rest) {
      if 2 <= |line| && IsSpace(line[1]) {
        assert line == ">" + [line[1]] + rest;
      } else {
        assert line == ">" + rest;
      }
    }
  }

  lemma AfterMarkSound(s: string)
    requires AfterMark(s).Some?
    ensures var rest := AfterMark(s).value; var w := s[..|s| - |rest|];
            w != "" && White(w) && s == w + rest && Begins(rest)
  {
  }

  /** Where the white space at the front of a line ends. */
  lemma Indented(line: string)
    ensures var n := CustomEmoji.Run(line, IsSpace); White(line[..n]) && line == line[..n] + line[n..]
  {
  }

  lemma GlueFour(a: string, b: string, c: string, d: string)
    ensures a + (b + (c + d)) == a + b + c + d
  {
  }

  lemma GlueFive(a: string, b: string, c: string, d: string, e: string)
    ensures a + (b + (c + (d + e))) == a + b + c + d + e
  {
  }

  lemma BulletIs(line: string, indent: string, mark: string, w: string, rest: string)
    requires White(indent) && mark in {"-", "*"} && w != "" && White(w) && Begins(rest)
    requires line == indent + (mark + (w + rest))
    ensures BulletText(line, rest)
  {
    GlueFour(indent, mark, w, rest);
  }

  lemma MarkThen(s: string) returns (mark: string)
    requires s != "" && s[0] in "-*"
    ensures mark in {"-", "*"} && s == mark + s[1..]
  {
    mark := if s[0] == '-' then "-" else "*";
  }

  lemma BulletSound(line: string)
    requires BulletRest(line).Some?
    ensures BulletText(line, BulletRest(line).value)
  {
    var indent := line[..CustomEmoji.Run(line, IsSpace)];
    var s, rest := line[|indent|..], BulletRest(line).value;
    var after := s[1..];
    var mark := MarkThen(s);
    Indented(line);
    AfterMarkSound(after);
    BulletIs(line, indent, mark, after[..|after| - |rest|], rest);
  }

  lemma BulletIff(line: string, rest: string)
    ensures BulletRest(line) == Some(rest) <==> BulletText(line, rest)
  {
    if BulletRest(line) == Some(rest) { BulletSound(line); }
    if BulletText(line, rest) {
      var indent, w, mark :| mark in {"-", "*"} && White(indent) && w != "" && White(w)
                             && line == indent + mark + w + rest;
      GlueFour(indent, mark, w, rest);
      assert mark == [mark[0]];
      ReadBullet(indent, mark[0], w, rest);
    }
  }

  lemma DigitsIff(number: string)
    ensures number != "" && Only(number, Digits) <==> CustomEmoji.AllDigits(number)
  {
    forall i | 0 <= i < |number| ensures CustomEmoji.IsDigit(number[i]) <==> number[i] in Digits {
      CustomEmoji.DigitIff(number[i]);
    }
  }

  lemma NumberIs(line: string, indent: string, number: string, w: string, rest: string)
    requires White(indent) && number != "" && Only(number, Digits) && w != "" && White(w) && Begins(rest)
    requires line == indent + (number + ("." + (w + rest)))
    ensures NumberText(line, rest)
  {
    GlueFive(indent, number, ".", w, rest);
  }

  lemma FrontDigits(s: string, d: nat)
    requires 0 < d <= |s| && forall i :: 0 <= i < d ==> CustomEmoji.IsDigit(s[i])
    ensures Only(s[..d], Digits)
  {
    DigitsIff(s[..d]);
  }

  lemma DigitsThenDot(s: string, d: nat)
    requires d == CustomEmoji.Run(s, CustomEmoji.IsDigit) && 0 < d < |s| && s[d] == '.'
    ensures s == s[..d] + ("." + s[d + 1..]) && Only(s[..d], Digits)
  {
    FrontDigits(s, d);
    CustomEmoji.CutAt(s, d);
    assert [s[d]] == ".";
  }

  lemma NumberSound(line: string)
    requires NumberRest(line).Some?
    ensures NumberText(line, NumberRest(line).value)
  {
    var indent := line[..CustomEmoji.Run(line, IsSpace)];
    var s, rest := line[|indent|..], NumberRest(line).value;
    var d := CustomEmoji.Run(s, CustomEmoji.IsDigit);
    var number, after := s[..d], s[d + 1..];
    Indented(line);
    DigitsThenDot(s, d);
    AfterMarkSound(after);
    NumberIs(line, indent, number, after[..|after| - |rest|], rest);
  }

  lemma NumberIff(line: string, rest: string)
    ensures NumberRest(line) == Some(rest) <==> NumberText(line, rest)
  {
    if NumberRest(line) == Some(rest) { NumberSound(line); }
    if NumberText(line, rest) {
      var indent, number, w :| White(indent) && number != "" && Only(number, Digits) && w != "" && White(w)
                               && line == indent + number + "." + w + rest;
      DigitsIff(number);
      GlueFive(indent, number, ".", w, rest);
      ReadNumber(indent, number, w, rest);
    }
  }

  lemma HashesIff(marks: string)
    ensures Only(marks, "#") <==> forall i :: 0 <= i < |marks| ==> IsHash(marks[i])
  {
  }

  lemma HeadingStartIff(line: string)
    ensures IsHeading(line) <==> HeadingStart(line)
  {
    if IsHeading(line) {
      var h := CustomEmoji.Run(line, IsHash);
      HashesIff(line[..h]);
      assert line == line[..h] + [line[h]] + line[h + 1..];
      assert Marks(line[..h]) && White([line[h]]);
    }
    if HeadingStart(line) {
      var marks, w, rest :| Marks(marks) && w != "" && White(w) && line == marks + w + rest;
      assert line == marks + (w + rest) && IsSpace((w + rest)[0]);
      CustomEmoji.RunOf(marks, w + rest, IsHash);
    }
  }

  lemma TerminatorIff(c: char)
    ensures IsDot(c) <==> c !in Terminators
  {
  }

  lemma DotsIff(text: string)
    ensures AllDots(text) <==> Free(text, Terminators)
  {
    forall i | 0 <= i < |text| ensures IsDot(text[i]) <==> text[i] !in Terminators { TerminatorIff(text[i]); }
  }

  /** What `\s+` gives back until the rest fits: nothing when the text begins with something else, and else one
      character. */
  lemma GivenBack(s: string, w: string, text: string)
    requires s == w + text && w != "" && White(w) && text != "" && AllDots(text) && (IsSpace(text[0]) ==> |text| == 1)
    ensures GiveBack(s, CustomEmoji.Run(s, IsSpace)) == Some(text)
  {
    if IsSpace(text[0]) {
      CustomEmoji.RunOf(s, "", IsSpace);
      assert s + "" == s && s[|w|..] == text;
    } else {
      CustomEmoji.RunOf(w, text, IsSpace);
      assert s[|w|..] == text;
    }
  }

  lemma HeadingComplete(line: string, level: nat, text: string)
    requires HeadingText(line, level, text)
    ensures HeadingMatch(line) == Some((level, text))
  {
    var marks, w :| Marks(marks) && |marks| == level && w != "" && White(w) && line == marks + w + text;
    assert line == marks + (w + text);
    assert IsSpace((w + text)[0]);
    HashesIff(marks);
    CustomEmoji.RunOf(marks, w + text, IsHash);
    assert line[level..] == w + text && line[level] == w[0];
    DotsIff(text);
    GivenBack(w + text, w, text);
  }

  lemma DotsShorter(s: string, j: nat)
    requires j < |s| && AllDots(s[j..])
    ensures AllDots(s[j + 1..])
  {
    assert s[j + 1..] == s[j..][1..];
  }

  /** The longest white space after which the rest fits. */
  lemma LastSplit(s: string, j: nat)
    requires 1 <= j <= CustomEmoji.Run(s, IsSpace) && HeadingSplit(s, j)
    requires j < CustomEmoji.Run(s, IsSpace) ==> !HeadingSplit(s, j + 1)
    ensures IsSpace(s[j]) ==> |s| == j + 1
  {
    DotsShorter(s, j);
  }

  lemma GiveBackIs(s: string)
    requires GiveBack(s, CustomEmoji.Run(s, IsSpace)).Some?
    ensures var text := GiveBack(s, CustomEmoji.Run(s, IsSpace)).value;
            && 0 < |text| < |s| && s[|s| - |text|..] == text && AllDots(text) && White(s[..|s| - |text|])
            && (IsSpace(text[0]) ==> |text| == 1)
  {
    var w := CustomEmoji.Run(s, IsSpace);
    var text := GiveBack(s, w).value;
    var j :| 1 <= j <= w && HeadingSplit(s, j) && text == s[j..];
    LastSplit(s, j);
  }

  lemma HeadingIs(line: string, level: nat, w: string, text: string)
    requires level <= |line| && 1 <= level <= 3 && forall i :: 0 <= i < level ==> IsHash(line[i])
    requires line[level..] == w + text && w != "" && White(w)
    requires text != "" && Free(text, Terminators) && (IsSpace(text[0]) ==> |text| == 1)
    ensures HeadingText(line, level, text)
  {
    var marks := line[..level];
    HashesIff(marks);
    assert line == marks + w + text;
  }

  lemma HeadingSound(line: string)
    requires HeadingMatch(line).Some?
    ensures HeadingText(line, HeadingMatch(line).value.0, HeadingMatch(line).value.1)
  {
    var (level, text) := HeadingMatch(line).value;
    var s := line[level..];
    GiveBackIs(s);
    DotsIff(text);
    assert s == s[..|s| - |text|] + text;
    HeadingIs(line, level, s[..|s| - |text|], text);
  }

  lemma HeadingIff(line: string, level: nat, text: string)
    ensures HeadingMatch(line) == Some((level, text)) <==> HeadingText(line, level, text)
  {
    if HeadingMatch(line) == Some((level, text)) { HeadingSound(line); }
    if HeadingText(line, level, text) { HeadingComplete(line, level, text); }
  }

  // ---- Which texts end the loop ----

  /** Line i lies inside a fenced block, its closing fence included. */
  ghost predicate Within(lines: seq<string>, i: nat)
    requires i <= |lines|
  {
    if i == 0 then false
    else if Within(lines, i - 1) then !BareFence(lines[i - 1])
    else Fence(lines[i - 1])
  }

  lemma {:induction false} WithinIff(lines: seq<string>, i: nat)
    requires i <= |lines|
    ensures Within(lines, i) <==> InFence(lines, i)
    decreases i
  {
    if i > 0 {
      var line := lines[i - 1];
      WithinIff(lines, i - 1);
      FenceEndIff(line);
      OpensIff(line);
    }
  }

  lemma OpensIff(line: string)
    ensures Fence(line) <==> FenceLanguage(line).Some?
  {
    if FenceLanguage(line).Some? { FenceSound(line); }
    forall language | FenceText(line, language) ensures FenceLanguage(line).Some? { FenceComplete(line, language); }
  }

  lemma StuckMeans(line: string)
    ensures Stuck(line) <==> HeadingStart(line) && !exists level, text :: HeadingText(line, level, text)
  {
    HeadingStartIff(line);
    if HeadingMatch(line).Some? { HeadingSound(line); }
    forall level, text | HeadingText(line, level, text) ensures HeadingMatch(line).Some? {
      HeadingComplete(line, level, text);
    }
  }

  /** The loop ends iff every line outside fenced blocks that starts as a heading is one. */
  lemma EndsIff(lines: seq<string>)
    ensures Halts(lines) <==>
            forall j :: 0 <= j < |lines| && !Within(lines, j) && HeadingStart(lines[j]) ==>
              exists level, text :: HeadingText(lines[j], level, text)
  {
    HaltsIff(lines);
    forall j | 0 <= j < |lines|
      ensures Within(lines, j) <==> InFence(lines, j)
      ensures Stuck(lines[j]) <==> HeadingStart(lines[j]) && !exists level, text :: HeadingText(lines[j], level, text)
    {
      WithinIff(lines, j);
      StuckMeans(lines[j]);
    }
  }

  // ---- Blocks ----

  /** A line that is nothing else. */
  ghost predicate PlainText(line: string, text: string) {
    && text == line && !White(line) && !Fence(line) && !HeadingStart(line)
    && forall rest :: !QuoteText(line, rest) && !BulletText(line, rest) && !NumberText(line, rest)
  }

  /** As many lines as have the form, and what they hold. */
  ghost predicate Lines(texts: seq<string>, lines: seq<string>, from: nat, to: nat, form: (string, string) -> bool)
    requires from <= to <= |lines|
  {
    && |texts| == to - from && (forall k :: 0 <= k < |texts| ==> form(lines[from + k], texts[k]))
    && (to < |lines| ==> forall rest :: !form(lines[to], rest))
  }

  /** The lines between an opening fence and the next bare one, or the end of the text. */
  ghost predicate FencedLines(content: string, lines: seq<string>, from: nat, to: nat)
    requires to <= |lines|
  {
    exists end: nat ::
      && from < end <= |lines| && (forall k :: from < k < end ==> !BareFence(lines[k]))
      && (if end == |lines| then to == end else to == end + 1 && BareFence(lines[end]))
      && content == Join(lines[from + 1..end])
  }

  /** The block stands on these lines. */
  ghost predicate Stands(b: Block, lines: seq<string>, from: nat, to: nat)
    requires from < to <= |lines|
  {
    match b
    case Blank => to == from + 1 && White(lines[from])
    case Heading(level, text) => to == from + 1 && HeadingText(lines[from], level, text)
    case Code(language, content) => FenceText(lines[from], language) && FencedLines(content, lines, from, to)
    case Quote(texts) => Lines(texts, lines, from, to, (l, r) => QuoteText(l, r))
    case Bullets(items) => Lines(items, lines, from, to, (l, r) => BulletText(l, r))
    case Numbered(items) => Lines(items, lines, from, to, (l, r) => NumberText(l, r))
    case Paragraph(texts) => Lines(texts, lines, from, to, (l, r) => PlainText(l, r))
  }

  /** The test finds the form and what it holds. */
  ghost predicate Finds(test: string -> Option<string>, form: (string, string) -> bool) {
    forall line, rest :: test(line) == Some(rest) <==> form(line, rest)
  }

  lemma LinesIff(texts: seq<string>, lines: seq<string>, from: nat, to: nat, test: string -> Option<string>,
                 form: (string, string) -> bool)
    requires from <= to <= |lines| && Finds(test, form)
    ensures MaximalRun(texts, lines, from, to, test) <==> Lines(texts, lines, from, to, form)
  {
    if to < |lines| {
      var after := test(lines[to]);
      assert after.Some? ==> form(lines[to], after.value);
    }
  }

  lemma QuoteFinds()
    ensures Finds(QuoteRest, (l, r) => QuoteText(l, r))
  {
    forall line, rest ensures QuoteRest(line) == Some(rest) <==> QuoteText(line, rest) { QuoteIff(line, rest); }
  }

  lemma BulletFinds()
    ensures Finds(BulletRest, (l, r) => BulletText(l, r))
  {
    forall line, rest ensures BulletRest(line) == Some(rest) <==> BulletText(line, rest) { BulletIff(line, rest); }
  }

  lemma NumberFinds()
    ensures Finds(NumberRest, (l, r) => NumberText(l, r))
  {
    forall line, rest ensures NumberRest(line) == Some(rest) <==> NumberText(line, rest) { NumberIff(line, rest); }
  }

  lemma PlainTextIff(line: string, text: string)
    ensures ParagraphRest(line) == Some(text) <==> PlainText(line, text)
  {
    BlankIff(line);
    HeadingStartIff(line);
    OpensIff(line);
    forall rest
      ensures QuoteRest(line) == Some(rest) <==> QuoteText(line, rest)
      ensures BulletRest(line) == Some(rest) <==> BulletText(line, rest)
      ensures NumberRest(line) == Some(rest) <==> NumberText(line, rest)
    {
      QuoteIff(line, rest);
      BulletIff(line, rest);
      NumberIff(line, rest);
    }
    var q, b, n := QuoteRest(line), BulletRest(line), NumberRest(line);
    assert q.Some? ==> QuoteText(line, q.value);
    assert b.Some? ==> BulletText(line, b.value);
    assert n.Some? ==> NumberText(line, n.value);
  }

  lemma PlainFinds()
    ensures Finds(ParagraphRest, (l, r) => PlainText(l, r))
  {
    forall line, rest ensures ParagraphRest(line) == Some(rest) <==> PlainText(line, rest) { PlainTextIff(line, rest); }
  }

  lemma FencedLinesIff(content: string, lines: seq<string>, from: nat, to: nat)
    requires to <= |lines|
    ensures FencedBy(content, lines, from, to) <==> FencedLines(content, lines, from, to)
  {
    forall k | 0 <= k < |lines| ensures IsFenceEnd(lines[k]) <==> BareFence(lines[k]) { FenceEndIff(lines[k]); }
    if FencedBy(content, lines, from, to) {
      var end: nat :| FencedTo(lines, from, end, to) && content == Join(lines[from + 1..end]);
    }
    if FencedLines(content, lines, from, to) {
      var end: nat :| from < end <= |lines| && (forall k :: from < k < end ==> !BareFence(lines[k]))
                      && (if end == |lines| then to == end else to == end + 1 && BareFence(lines[end]))
                      && content == Join(lines[from + 1..end]);
      assert FencedTo(lines, from, end, to);
    }
  }

  /** A block describes its lines iff it stands on them: so what the parser returns is the one sequence of blocks that
      stand on the lines from the first to the last. */
  lemma DescribesIff(b: Block, lines: seq<string>, from: nat, to: nat)
    requires from < to <= |lines|
    ensures Describes(b, lines, from, to) <==> Stands(b, lines, from, to)
  {
    match b
    case Blank => BlankIff(lines[from]);
    case Heading(level, text) => HeadingIff(lines[from], level, text);
    case Code(language, content) =>
      FenceIff(lines[from], language);
      FencedLinesIff(content, lines, from, to);
    case Quote(texts) =>
      QuoteFinds();
      LinesIff(texts, lines, from, to, QuoteRest, (l, r) => QuoteText(l, r));
    case Bullets(items) =>
      BulletFinds();
      LinesIff(items, lines, from, to, BulletRest, (l, r) => BulletText(l, r));
    case Numbered(items) =>
      NumberFinds();
      LinesIff(items, lines, from, to, NumberRest, (l, r) => NumberText(l, r));
    case Paragraph(texts) =>
      PlainFinds();
      LinesIff(texts, lines, from, to, ParagraphRest, (l, r) => PlainText(l, r));
  }

  // ---- A text that begins with a fenced block ----

  function Moved(s: Span, n: nat): Span { Span(s.block, n + s.from, n + s.to) }

  function Shifted(spans: seq<Span>, n: nat): (r: seq<Span>)
    ensures |r| == |spans| && forall i :: 0 <= i < |r| ==> r[i] == Moved(spans[i], n)
  {
    seq(|spans|, i requires 0 <= i < |spans| => Moved(spans[i], n))
  }

  lemma {:induction false} SplitJoin(lines: seq<string>)
    requires lines != [] && forall i :: 0 <= i < |lines| ==> '\n' !in lines[i]
    ensures Split(Join(lines)) == lines
    decreases |lines|
  {
    if |lines| == 1 {
      SplitLine(lines[0]);
      assert lines == [lines[0]];
    } else {
      SplitJoin(lines[1..]);
      SplitFirst(lines[0], Join(lines[1..]));
      assert lines == [lines[0]] + lines[1..];
    }
  }

  lemma {:induction false} SplitLine(line: string)
    requires '\n' !in line
    ensures Split(line) == [line]
    decreases |line|
  {
    if line != "" {
      SplitLine(line[1..]);
      assert line == [line[0]] + line[1..];
    }
  }

  lemma Regroup(a: string, b: string, c: string)
    ensures a + "\n" + b + "\n" + c == a + "\n" + (b + "\n" + c)
  {
  }

  lemma {:induction false} SplitAfter(lines: seq<string>, rest: string)
    requires lines != [] && forall i :: 0 <= i < |lines| ==> '\n' !in lines[i]
    ensures Split(Join(lines) + "\n" + rest) == lines + Split(rest)
    decreases |lines|
  {
    if |lines| == 1 {
      SplitFirst(lines[0], rest);
      assert lines == [lines[0]];
    } else {
      var later := Join(lines[1..]) + "\n" + rest;
      SplitAfter(lines[1..], rest);
      Regroup(lines[0], Join(lines[1..]), rest);
      SplitFirst(lines[0], later);
      assert lines + Split(rest) == [lines[0]] + (lines[1..] + Split(rest));
    }
  }

  /** The lines from m on are those of the other text. */
  ghost predicate Tail(lines: seq<string>, m: nat, more: seq<string>) {
    m <= |lines| && lines[m..] == more
  }

  lemma RunShifts(texts: seq<string>, lines: seq<string>, m: nat, more: seq<string>, from: nat, to: nat,
                  test: string -> Option<string>)
    requires Tail(lines, m, more) && from <= to <= |more|
    ensures MaximalRun(texts, more, from, to, test) <==> MaximalRun(texts, lines, m + from, m + to, test)
  {
    if |texts| == to - from {
      forall k | 0 <= k < |texts|
        ensures test(lines[m + from + k]) == Some(texts[k]) <==> test(more[from + k]) == Some(texts[k])
      {
        assert lines[m + (from + k)] == more[from + k];
      }
    }
    if to < |more| { assert lines[m + to] == more[to]; }
  }

  lemma SliceShifts(lines: seq<string>, m: nat, more: seq<string>, a: nat, b: nat)
    requires Tail(lines, m, more) && a <= b <= |more|
    ensures lines[m + a..m + b] == more[a..b]
  {
    forall i | 0 <= i < b - a ensures lines[m + a..m + b][i] == more[a..b][i] {
      assert lines[m + (a + i)] == more[a + i];
    }
  }

  lemma FencedShifts(lines: seq<string>, m: nat, more: seq<string>, from: nat, end: nat, to: nat)
    requires Tail(lines, m, more) && to <= |more|
    ensures FencedTo(more, from, end, to) <==> FencedTo(lines, m + from, m + end, m + to)
  {
    assert forall k :: m <= k < |lines| ==> lines[k] == more[k - m];
  }

  lemma CodeShifts(content: string, lines: seq<string>, m: nat, more: seq<string>, from: nat, to: nat)
    requires Tail(lines, m, more) && to <= |more|
    ensures FencedBy(content, more, from, to) <==> FencedBy(content, lines, m + from, m + to)
  {
    if FencedBy(content, more, from, to) {
      var end: nat :| FencedTo(more, from, end, to) && content == Join(more[from + 1..end]);
      FencedShifts(lines, m, more, from, end, to);
      SliceShifts(lines, m, more, from + 1, end);
    }
    if FencedBy(content, lines, m + from, m + to) {
      var end: nat :| FencedTo(lines, m + from, end, m + to) && content == Join(lines[m + from + 1..end]);
      FencedShifts(lines, m, more, from, end - m, to);
      SliceShifts(lines, m, more, from + 1, end - m);
    }
  }

  lemma DescribesShifts(b: Block, lines: seq<string>, m: nat, more: seq<string>, from: nat, to: nat)
    requires Tail(lines, m, more) && from < to <= |more|
    ensures Describes(b, more, from, to) <==> Describes(b, lines, m + from, m + to)
  {
    assert lines[m + from] == more[from];
    match b
    case Code(_, content) => CodeShifts(content, lines, m, more, from, to);
    case Quote(texts) => RunShifts(texts, lines, m, more, from, to, QuoteRest);
    case Bullets(items) => RunShifts(items, lines, m, more, from, to, BulletRest);
    case Numbered(items) => RunShifts(items, lines, m, more, from, to, NumberRest);
    case Paragraph(texts) => RunShifts(texts, lines, m, more, from, to, ParagraphRest);
    case _ =>
  }

  lemma SameFirst(x: Span, y: Span, lines: seq<string>, m: nat, more: seq<string>)
    requires Tail(lines, m, more) && y.from < y.to <= |more| && Describes(y.block, more, y.from, y.to)
    requires x.from == m + y.from && x.from < x.to <= |lines| && Describes(x.block, lines, x.from, x.to)
    ensures x == Moved(y, m)
  {
    DescribesShifts(y.block, lines, m, more, y.from, y.to);
    DescribedOnce(x.block, x.to, y.block, m + y.to, lines, x.from);
  }

  /** Cut into blocks, the same lines give the same blocks in both texts. */
  lemma {:induction false} SameBlocks(spans: seq<Span>, later: seq<Span>, lines: seq<string>, m: nat, more: seq<string>,
                                      from: nat, a: nat)
    requires Tail(lines, m, more) && a <= |more| && from == m + a
    requires Partition(spans, lines, from, |lines|) && Partition(later, more, a, |more|)
    ensures spans == Shifted(later, m)
    decreases |later|
  {
    assert m + |more| == |lines|;
    if spans != [] { FirstSpan(spans, lines, from, |lines|); }
    if later != [] { FirstSpan(later, more, a, |more|); }
    if later != [] && spans != [] {
      SameFirst(spans[0], later[0], lines, m, more);
      SameBlocks(spans[1..], later[1..], lines, m, more, spans[0].to, later[0].to);
      ShiftedFirst(spans, later, m);
    }
  }

  lemma ShiftedFirst(spans: seq<Span>, later: seq<Span>, m: nat)
    requires spans != [] && later != [] && spans[0] == Moved(later[0], m) && spans[1..] == Shifted(later[1..], m)
    ensures spans == Shifted(later, m)
  {
    assert spans == [spans[0]] + spans[1..];
  }

  lemma {:induction false} WithinShifts(lines: seq<string>, m: nat, more: seq<string>, j: nat)
    requires Tail(lines, m, more) && j <= |more| && !InFence(lines, m)
    ensures InFence(lines, m + j) <==> InFence(more, j)
    decreases j
  {
    if j > 0 {
      WithinShifts(lines, m, more, j - 1);
      assert lines[m + (j - 1)] == more[j - 1];
    }
  }

  /** An opening fence, lines that close nothing, a bare fence, and a text after them. */
  ghost predicate FencedFirst(lines: seq<string>, language: string, body: seq<string>, more: seq<string>) {
    && |lines| == |body| + 2 + |more| && FenceText(lines[0], language) && lines[1..|body| + 1] == body
    && BareFence(lines[|body| + 1]) && (forall i :: 0 <= i < |body| ==> !BareFence(body[i]))
    && Tail(lines, |body| + 2, more)
  }

  lemma FencedWithin(lines: seq<string>, language: string, body: seq<string>, more: seq<string>, i: nat)
    requires FencedFirst(lines, language, body, more) && i <= |body| + 2
    ensures InFence(lines, i) <==> 0 < i < |body| + 2
  {
    if i > 0 {
      FencedWithin(lines, language, body, more, i - 1);
      FenceIff(lines[0], language);
      FenceEndIff(lines[i - 1]);
      assert 1 < i < |body| + 2 ==> lines[i - 1] == lines[1..|body| + 1][i - 2];
    }
  }

  lemma FencedBlock(lines: seq<string>, language: string, body: seq<string>, more: seq<string>)
    requires FencedFirst(lines, language, body, more)
    ensures Describes(Code(language, Join(body)), lines, 0, |body| + 2)
  {
    FenceIff(lines[0], language);
    var end := |body| + 1;
    forall k | 0 < k <= end ensures IsFenceEnd(lines[k]) <==> k == end {
      FenceEndIff(lines[k]);
      assert k < end ==> lines[k] == lines[1..end][k - 1];
    }
    assert FencedTo(lines, 0, end, end + 1);
  }

  lemma OpensUnstuck(line: string, language: string)
    requires FenceText(line, language)
    ensures !Stuck(line)
  {
    FenceIff(line, language);
    KindIffTest(line);
  }

  lemma StuckLater(lines: seq<string>, m: nat, more: seq<string>)
    requires Tail(lines, m, more) && !InFence(lines, m) && NoStuckLine(lines)
    ensures NoStuckLine(more)
  {
    forall j | 0 <= j < |more| && !InFence(more, j) ensures !Stuck(more[j]) {
      WithinShifts(lines, m, more, j);
      assert lines[m + j] == more[j];
    }
  }

  lemma StuckEarlier(lines: seq<string>, m: nat, more: seq<string>)
    requires Tail(lines, m, more) && !InFence(lines, m) && NoStuckLine(more)
    requires forall j :: 0 <= j < m && !InFence(lines, j) ==> !Stuck(lines[j])
    ensures NoStuckLine(lines)
  {
    forall j | m <= j < |lines| && !InFence(lines, j) ensures !Stuck(lines[j]) {
      WithinShifts(lines, m, more, j - m);
      assert lines[m + (j - m)] == more[j - m];
    }
  }

  /** The loop ends iff it ends on the text after the block. */
  lemma FencedEnds(lines: seq<string>, language: string, body: seq<string>, more: seq<string>)
    requires FencedFirst(lines, language, body, more)
    ensures NoStuckLine(lines) <==> NoStuckLine(more)
  {
    var m := |body| + 2;
    FencedWithin(lines, language, body, more, m);
    OpensUnstuck(lines[0], language);
    forall j | 0 < j < m ensures InFence(lines, j) { FencedWithin(lines, language, body, more, j); }
    if NoStuckLine(lines) { StuckLater(lines, m, more); }
    if NoStuckLine(more) { StuckEarlier(lines, m, more); }
  }

  /** A block that stands on the first lines is the first that is returned, and the others are those of the rest. */
  lemma FirstIs(lines: seq<string>, b: Block, m: nat, spans: seq<Span>)
    requires 0 < m <= |lines| && Describes(b, lines, 0, m) && Partition(spans, lines, 0, |lines|)
    ensures spans != [] && spans[0] == Span(b, 0, m) && Partition(spans[1..], lines, m, |lines|)
  {
    FirstSpan(spans, lines, 0, |lines|);
    DescribedOnce(spans[0].block, spans[0].to, b, m, lines, 0);
  }

  lemma SpansAre(lines: seq<string>, b: Block, m: nat, more: seq<string>, spans: seq<Span>, later: seq<Span>)
    requires 0 < m <= |lines| && Describes(b, lines, 0, m) && Partition(spans, lines, 0, |lines|)
    requires Tail(lines, m, more) && Partition(later, more, 0, |more|)
    ensures spans == [Span(b, 0, m)] + Shifted(later, m)
  {
    assert m + |more| == |lines|;
    FirstIs(lines, b, m, spans);
    SameBlocks(spans[1..], later, lines, m, more, m, 0);
    assert spans == [spans[0]] + spans[1..];
  }

  /** The text of a fenced block and what follows it. */
  function FencedSource(language: string, a: string, body: seq<string>, b: string, rest: string): string {
    Join(["```" + language + a] + body + ["```" + b]) + "\n" + rest
  }

  /** An opening fence, lines that close nothing, a bare fence and any further text are parsed as that code block and
      then as the further text alone: for the same texts the parser returns, and what it returns is put together so. */
  lemma FencedThenRest(language: string, a: string, body: seq<string>, b: string, rest: string)
    requires Only(language, Alphanumerics + "_+-") && White(a) && White(b) && '\n' !in a && '\n' !in b
    requires forall i :: 0 <= i < |body| ==> '\n' !in body[i] && !BareFence(body[i])
    ensures var lines, more := Split(FencedSource(language, a, body, b, rest)), Split(rest);
            && (NoStuckLine(lines) <==> NoStuckLine(more))
            && forall spans, later | Partition(spans, lines, 0, |lines|) && Partition(later, more, 0, |more|) ::
                 spans == [Span(Code(language, Join(body)), 0, |body| + 2)] + Shifted(later, |body| + 2)
  {
    var head := ["```" + language + a] + body + ["```" + b];
    var more := Split(rest);
    NoNewline(language);
    SplitAfter(head, rest);
    var lines := head + more;
    assert lines[0] == "```" + language + a && lines[|body| + 1] == "```" + b && lines[1..|body| + 1] == body;
    assert FencedFirst(lines, language, body, more);
    FencedEnds(lines, language, body, more);
    forall spans, later | Partition(spans, lines, 0, |lines|) && Partition(later, more, 0, |more|)
      ensures spans == [Span(Code(language, Join(body)), 0, |body| + 2)] + Shifted(later, |body| + 2)
    {
      FencedBlock(lines, language, body, more);
      SpansAre(lines, Code(language, Join(body)), |body| + 2, more, spans, later);
    }
  }

  lemma NoNewline(language: string)
    requires Only(language, Alphanumerics + "_+-")
    ensures '\n' !in language
  {
    LanguageIff(language);
  }
}
