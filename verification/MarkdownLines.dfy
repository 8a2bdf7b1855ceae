/** The line tests of client/src/lib/markdown.ts, lines 251-269, and the heading match of line 304. */
module MarkdownLines {
  import opened Options
  import opened JsText
  import opened CustomEmoji
  import InlineMarkdown

  /** `!line.trim()` */
  predicate IsBlank(line: string) { Run(line, IsSpace) == |line| }

  predicate AllDots(s: string) { forall i :: 0 <= i < |s| ==> IsDot(s[i]) }

  /** `/^```([A-Za-z0-9_+-]*)\s*$/`, which is both the test and the match of a fence. */
  function FenceLanguage(line: string): Option<string> {
    if !("```" <= line) then None
    else
      var rest := line[3..];
      var n := Run(rest, InlineMarkdown.IsLanguageChar);
      if White(rest[n..]) then Some(rest[..n]) else None
  }

  /** `/^```\s*$/` */
  predicate IsFenceEnd(line: string) { "```" <= line && White(line[3..]) }

  predicate IsHash(c: char) { c == '#' }

  /** `/^#{1,3}\s+/`: a fourth `#` would stand where white space must. */
  predicate IsHeading(line: string) {
    var h := Run(line, IsHash);
    1 <= h <= 3 && h < |line| && IsSpace(line[h])
  }

  /** The rest of `\s+(.+)$` once `\s+` has taken k characters: it gives them back one by one until the rest fits. */
  function GiveBack(s: string, k: nat): (r: Option<string>)
    requires k <= |s|
    ensures r.Some? ==> exists j :: 1 <= j <= k && HeadingSplit(s, j) && r.value == s[j..]
    ensures r.None? ==> forall j :: 1 <= j <= k ==> !HeadingSplit(s, j)
    ensures r.Some? ==> forall j :: 1 <= j <= k && HeadingSplit(s, j) ==> |r.value| <= |s| - j
  {
    if k == 0 then None
    else if HeadingSplit(s, k) then Some(s[k..])
    else GiveBack(s, k - 1)
  }

  predicate HeadingSplit(s: string, k: nat) { k < |s| && AllDots(s[k..]) }

  /** `/^(#{1,3})\s+(.+)$/` */
  function HeadingMatch(line: string): Option<(nat, string)> {
    if !IsHeading(line) then None
    else
      var h := Run(line, IsHash);
      var s := line[h..];
      match GiveBack(s, Run(s, IsSpace))
      case None => None
      case Some(text) => Some((h, text))
  }

  /** The line stops a paragraph as a heading but is not consumed as one. */
  predicate Stuck(line: string) { IsHeading(line) && HeadingMatch(line).None? }

  /** `/^>\s?/` and what its replacement by nothing leaves. */
  function QuoteRest(line: string): Option<string> {
    if !(">" <= line) then None
    else if 2 <= |line| && IsSpace(line[1]) then Some(line[2..])
    else Some(line[1..])
  }

  /** `/^\s*[-*]\s+/` and what its replacement by nothing leaves. */
  function BulletRest(line: string): Option<string> {
    var s := line[Run(line, IsSpace)..];
    if s == "" || s[0] !in "-*" then None else AfterMark(s[1..])
  }

  function AfterMark(s: string): Option<string> {
    var w := Run(s, IsSpace);
    if w == 0 then None else Some(s[w..])
  }

  /** `/^\s*\d+\.\s+/` and what its replacement by nothing leaves. */
  function NumberRest(line: string): Option<string> {
    var s := line[Run(line, IsSpace)..];
    var d := Run(s, IsDigit);
    if d == 0 || d >= |s| || s[d] != '.' then None else AfterMark(s[d + 1..])
  }

  datatype Kind = BlankLine | FenceLine | HeadingLine | StuckLine | QuoteLine | BulletLine | NumberLine | PlainLine

  /** The tests in the order in which parseMarkdown tries them at block level. */
  function KindOf(line: string): Kind {
    if IsBlank(line) then BlankLine
    else if FenceLanguage(line).Some? then FenceLine
    else if HeadingMatch(line).Some? then HeadingLine
    else if QuoteRest(line).Some? then QuoteLine
    else if BulletRest(line).Some? then BulletLine
    else if NumberRest(line).Some? then NumberLine
    else if IsHeading(line) then StuckLine
    else PlainLine
  }

  // ---- No line passes two tests, so their order does not matter ----

  /** The first character that is not white space, or a space when there is none. */
  function FirstSolid(line: string): char {
    var n := Run(line, IsSpace);
    if n < |line| then line[n] else ' '
  }

  lemma SolidOfBlank(line: string)
    ensures IsBlank(line) <==> FirstSolid(line) == ' '
  {
  }

  lemma SolidOfFence(line: string)
    requires FenceLanguage(line).Some?
    ensures FirstSolid(line) == '`'
  {
    assert line[0] == '`';
  }

  lemma SolidOfHeading(line: string)
    requires IsHeading(line)
    ensures FirstSolid(line) == '#'
  {
  }

  lemma SolidOfQuote(line: string)
    requires QuoteRest(line).Some?
    ensures FirstSolid(line) == '>'
  {
    assert line[0] == '>';
  }

  lemma SolidOfBullet(line: string)
    requires BulletRest(line).Some?
    ensures FirstSolid(line) in "-*"
  {
  }

  lemma SolidOfNumber(line: string)
    requires NumberRest(line).Some?
    ensures IsDigit(FirstSolid(line))
  {
  }

  /** Every single test decides the kind of the line, whatever the tests before it say. */
  lemma KindIffTest(line: string)
    ensures IsBlank(line) <==> KindOf(line).BlankLine?
    ensures FenceLanguage(line).Some? <==> KindOf(line).FenceLine?
    ensures IsHeading(line) <==> KindOf(line).HeadingLine? || KindOf(line).StuckLine?
    ensures Stuck(line) <==> KindOf(line).StuckLine?
    ensures QuoteRest(line).Some? <==> KindOf(line).QuoteLine?
    ensures BulletRest(line).Some? <==> KindOf(line).BulletLine?
    ensures NumberRest(line).Some? <==> KindOf(line).NumberLine?
  {
    SolidOfBlank(line);
    if FenceLanguage(line).Some? { SolidOfFence(line); }
    if IsHeading(line) { SolidOfHeading(line); }
    if QuoteRest(line).Some? { SolidOfQuote(line); }
    if BulletRest(line).Some? { SolidOfBullet(line); }
    if NumberRest(line).Some? { SolidOfNumber(line); }
  }

  // ---- What the matches mean ----

  /** Marks, white space, a text of at least one character up to the end: read back as written. */
  lemma ReadHeading(level: nat, spaces: string, text: string)
    requires 1 <= level <= 3 && spaces != "" && White(spaces)
    requires text != "" && AllDots(text) && !IsSpace(text[0])
    ensures HeadingMatch("###"[..level] + (spaces + text)) == Some((level, text))
  {
    var marks := "###"[..level];
    var s := spaces + text;
    var line := marks + s;
    RunOf(marks, s, IsHash);
    RunOf(spaces, text, IsSpace);
    assert line[level] == spaces[0] && line[level..] == s && s[|spaces|..] == text;
  }

  /** When a heading hangs the parser: nothing follows the first white space, or a line terminator stands at or after
      the last character that white space can leave to the text. */
  lemma StuckIff(line: string)
    requires IsHeading(line)
    ensures var s := line[Run(line, IsHash)..];
            var k := if Run(s, IsSpace) < |s| then Run(s, IsSpace) else |s| - 1;
            Stuck(line) <==> (k == 0 || exists i :: k <= i < |s| && !IsDot(s[i]))
  {
    var s := line[Run(line, IsHash)..];
    var w := Run(s, IsSpace);
    var k := if w < |s| then w else |s| - 1;
    if k != 0 && AllDots(s[k..]) {
      assert HeadingSplit(s, k);
    }
    if HeadingMatch(line).Some? {
      var j :| 1 <= j <= w && HeadingSplit(s, j);
      forall i | k <= i < |s| ensures IsDot(s[i]) {
        assert s[i] == s[j..][i - j];
      }
    }
  }

  lemma ReadBullet(indent: string, mark: char, spaces: string, rest: string)
    requires White(indent) && mark in "-*" && spaces != "" && White(spaces)
    requires rest == "" || !IsSpace(rest[0])
    ensures BulletRest(indent + ([mark] + (spaces + rest))) == Some(rest)
  {
    var s := [mark] + (spaces + rest);
    RunOf(indent, s, IsSpace);
    RunOf(spaces, rest, IsSpace);
    assert (indent + s)[|indent|..] == s && s[1..] == spaces + rest;
    assert (spaces + rest)[|spaces|..] == rest;
  }

  lemma ReadNumber(indent: string, number: string, spaces: string, rest: string)
    requires White(indent) && AllDigits(number) && spaces != "" && White(spaces)
    requires rest == "" || !IsSpace(rest[0])
    ensures NumberRest(indent + (number + ("." + (spaces + rest)))) == Some(rest)
  {
    var s := number + ("." + (spaces + rest));
    RunOf(indent, s, IsSpace);
    RunOf(number, "." + (spaces + rest), IsDigit);
    RunOf(spaces, rest, IsSpace);
    assert (indent + s)[|indent|..] == s && s[|number| + 1..] == spaces + rest;
    assert (spaces + rest)[|spaces|..] == rest;
  }
}
