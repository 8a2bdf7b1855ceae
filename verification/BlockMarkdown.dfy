/** parseMarkdown of client/src/lib/markdown.ts: the block loop, without the React elements it builds. */
module BlockMarkdown {
  import opened Options
  import opened MarkdownLines
  import JsText
  import CustomEmoji

  datatype Block =
    | Blank
    | Code(language: string, content: string)
    | Heading(level: nat, text: string)
    | Quote(texts: seq<string>)
    | Bullets(items: seq<string>)
    | Numbered(items: seq<string>)
    | Paragraph(texts: seq<string>)

  /** A block and the lines [from, to) it was made from. */
  datatype Span = Span(block: Block, from: nat, to: nat)

  // ---- Lines ----

  /** `text.split('\n')` */
  function Split(text: string): (r: seq<string>)
    ensures r != [] && forall i :: 0 <= i < |r| ==> '\n' !in r[i]
    decreases |text|
  {
    if text == "" then [""]
    else if text[0] == '\n' then [""] + Split(text[1..])
    else
      var r := Split(text[1..]);
      [[text[0]] + r[0]] + r[1..]
  }

  /** `lines.join('\n')` */
  function Join(lines: seq<string>): string {
    if lines == [] then ""
    else if |lines| == 1 then lines[0]
    else lines[0] + "\n" + Join(lines[1..])
  }

  lemma {:induction false} JoinSplit(text: string)
    ensures Join(Split(text)) == text
    decreases |text|
  {
    if text != "" {
      JoinSplit(text[1..]);
      var r := Split(text[1..]);
      assert text == [text[0]] + text[1..];
      if text[0] == '\n' {
        assert ([""] + r)[1..] == r;
        assert "" + "\n" + Join(r) == text;
      } else {
        var a := [text[0]] + r[0];
        assert ([a] + r[1..])[1..] == r[1..];
        if |r| > 1 {
          assert a + "\n" + Join(r[1..]) == [text[0]] + (r[0] + "\n" + Join(r[1..]));
        }
      }
    }
  }

  // ---- One turn of the block loop ----

  /** The first line at or after i that fails the test. */
  function RunEnd(lines: seq<string>, i: nat, test: string -> bool): (r: nat)
    requires i <= |lines|
    ensures i <= r <= |lines|
    ensures forall k :: i <= k < r ==> test(lines[k])
    ensures r < |lines| ==> !test(lines[r])
    decreases |lines| - i
  {
    if i < |lines| && test(lines[i]) then RunEnd(lines, i + 1, test) else i
  }

  function IsOf(kind: Kind): string -> bool { line => KindOf(line) == kind }

  /** The first line at or after i of another kind. */
  function KindEnd(lines: seq<string>, i: nat, kind: Kind): (r: nat)
    requires i <= |lines|
    ensures i <= r <= |lines|
    ensures forall k :: i <= k < r ==> KindOf(lines[k]) == kind
    ensures r < |lines| ==> KindOf(lines[r]) != kind
  {
    RunEnd(lines, i, IsOf(kind))
  }

  /** The closing fence at or after i, or the end of the text. */
  function FenceEnd(lines: seq<string>, i: nat): (r: nat)
    requires i <= |lines|
    ensures i <= r <= |lines|
    ensures forall k :: i <= k < r ==> !IsFenceEnd(lines[k])
    ensures r < |lines| ==> IsFenceEnd(lines[r])
    decreases |lines| - i
  {
    if i < |lines| && !IsFenceEnd(lines[i]) then FenceEnd(lines, i + 1) else i
  }

  /** What the i-th line contributes to its quote, list or paragraph. */
  function Stripped(line: string): string {
    match KindOf(line)
    case QuoteLine => QuoteRest(line).value
    case BulletLine => BulletRest(line).value
    case NumberLine => NumberRest(line).value
    case _ => line
  }

  function MapLines(lines: seq<string>, from: nat, end: nat, strip: string -> string): (r: seq<string>)
    requires from <= end <= |lines|
    ensures |r| == end - from
    ensures forall k :: 0 <= k < |r| ==> r[k] == strip(lines[from + k])
    decreases end - from
  {
    if from == end then [] else MapLines(lines, from, end - 1, strip) + [strip(lines[end - 1])]
  }

  function StrippedLines(lines: seq<string>, from: nat, end: nat): (r: seq<string>)
    requires from <= end <= |lines|
    ensures |r| == end - from
    ensures forall k :: 0 <= k < |r| ==> r[k] == Stripped(lines[from + k])
  {
    MapLines(lines, from, end, Stripped)
  }

  /** Where `index` stands after one turn that starts at line i. */
  function Next(lines: seq<string>, i: nat): (r: nat)
    requires i < |lines|
    ensures i <= r <= |lines|
  {
    match KindOf(lines[i])
    case BlankLine => i + 1
    case FenceLine =>
      var end := FenceEnd(lines, i + 1);
      if end < |lines| then end + 1 else end
    case HeadingLine => i + 1
    case QuoteLine => KindEnd(lines, i, QuoteLine)
    case BulletLine => KindEnd(lines, i, BulletLine)
    case NumberLine => KindEnd(lines, i, NumberLine)
    case StuckLine => i
    case PlainLine => KindEnd(lines, i, PlainLine)
  }

  /** What that turn pushes. */
  function BlockAt(lines: seq<string>, i: nat): Block
    requires i < |lines|
  {
    var line := lines[i];
    match KindOf(line)
    case BlankLine => Blank
    case FenceLine => Code(FenceLanguage(line).value, Join(lines[i + 1..FenceEnd(lines, i + 1)]))
    case HeadingLine => Heading(HeadingMatch(line).value.0, HeadingMatch(line).value.1)
    case QuoteLine => Quote(StrippedLines(lines, i, KindEnd(lines, i, QuoteLine)))
    case BulletLine => Bullets(StrippedLines(lines, i, KindEnd(lines, i, BulletLine)))
    case NumberLine => Numbered(StrippedLines(lines, i, KindEnd(lines, i, NumberLine)))
    case StuckLine => Paragraph([])
    case PlainLine => Paragraph(StrippedLines(lines, i, KindEnd(lines, i, PlainLine)))
  }

  /** A turn advances unless it starts at a line that stops paragraphs as a heading and is not consumed as one. */
  lemma NextMoves(lines: seq<string>, i: nat)
    requires i < |lines|
    ensures Next(lines, i) == i <==> Stuck(lines[i])
  {
    KindIffTest(lines[i]);
  }

  // ---- The loop ends exactly when no line outside code fences is stuck ----

  /** `index` after n turns, when a turn goes from i to next[i]. */
  function IndexAfter(next: seq<nat>, n: nat): nat {
    if n == 0 then 0
    else
      var i := IndexAfter(next, n - 1);
      if i < |next| then next[i] else i
  }

  function NextOf(lines: seq<string>): (r: seq<nat>)
    ensures |r| == |lines|
  {
    seq(|lines|, i requires 0 <= i < |lines| => Next(lines, i))
  }

  lemma NextAt(lines: seq<string>, i: nat)
    requires i < |lines|
    ensures NextOf(lines)[i] == Next(lines, i) <= |lines|
  {
  }

  ghost predicate Halts(lines: seq<string>) {
    exists n: nat :: IndexAfter(NextOf(lines), n) == |lines|
  }

  /** Whether line i lies in a code block, closing fence included: one pass over the lines, blind to all other rules. */
  predicate InFence(lines: seq<string>, i: nat)
    requires i <= |lines|
  {
    if i == 0 then false
    else if InFence(lines, i - 1) then !IsFenceEnd(lines[i - 1])
    else FenceLanguage(lines[i - 1]).Some?
  }

  ghost predicate NoStuckLine(lines: seq<string>) {
    forall j :: 0 <= j < |lines| && !InFence(lines, j) ==> !Stuck(lines[j])
  }

  lemma {:induction false} InsideFence(lines: seq<string>, i: nat, k: nat)
    requires i < k <= |lines| && !InFence(lines, i) && FenceLanguage(lines[i]).Some?
    requires k <= FenceEnd(lines, i + 1)
    ensures InFence(lines, k)
    decreases k
  {
    if i + 1 < k {
      InsideFence(lines, i, k - 1);
    }
  }

  lemma {:induction false} OutsideFence(lines: seq<string>, i: nat, k: nat)
    requires i <= k <= |lines| && !InFence(lines, i)
    requires forall j :: i <= j < k ==> FenceLanguage(lines[j]).None?
    ensures !InFence(lines, k)
    decreases k
  {
    if i < k {
      OutsideFence(lines, i, k - 1);
    }
  }

  /** Block level and the fence scan agree: a turn goes from one line outside fences to the next, over lines that are
      inside a fence or of a kind that cannot be stuck. */
  lemma TurnStaysOutside(lines: seq<string>, i: nat)
    requires i < |lines| && !InFence(lines, i)
    ensures var n := Next(lines, i); n < |lines| ==> !InFence(lines, n)
    ensures forall j :: i < j < Next(lines, i) ==> InFence(lines, j) || !Stuck(lines[j])
  {
    var n := Next(lines, i);
    KindIffTest(lines[i]);
    if FenceLanguage(lines[i]).Some? {
      forall j | i < j < n ensures InFence(lines, j) {
        InsideFence(lines, i, j);
      }
      if n < |lines| {
        InsideFence(lines, i, n - 1);
      }
    } else {
      forall j | i <= j < n ensures FenceLanguage(lines[j]).None? && (i < j ==> !Stuck(lines[j])) {
        KindIffTest(lines[j]);
      }
      OutsideFence(lines, i, n);
    }
  }

  /** A set of lines that turns never leave, except at the end. */
  ghost predicate Confines(next: seq<nat>, outside: set<nat>) {
    && (next != [] ==> 0 in outside)
    && forall i :: i in outside && i < |next| ==> next[i] <= |next| && (next[i] < |next| ==> next[i] in outside)
  }

  lemma {:induction false} Confined(next: seq<nat>, outside: set<nat>, n: nat)
    requires Confines(next, outside)
    ensures var i := IndexAfter(next, n); i <= |next| && (i < |next| ==> i in outside)
  {
    if n > 0 {
      Confined(next, outside, n - 1);
    }
  }

  lemma {:induction false} NeverPasses(next: seq<nat>, outside: set<nat>, n: nat, j: nat)
    requires Confines(next, outside) && j < |next| && next[j] == j
    requires forall i :: i in outside && i < j ==> next[i] <= j
    ensures IndexAfter(next, n) <= j
  {
    if n > 0 {
      NeverPasses(next, outside, n - 1, j);
      Confined(next, outside, n - 1);
    }
  }

  lemma {:induction false} Advances(next: seq<nat>, outside: set<nat>, n: nat)
    requires Confines(next, outside) && n <= |next|
    requires forall i :: i in outside && i < |next| ==> i < next[i]
    ensures n <= IndexAfter(next, n)
  {
    if n > 0 {
      Advances(next, outside, n - 1);
      Confined(next, outside, n - 1);
    }
  }

  ghost function Outside(lines: seq<string>): set<nat> {
    set i: nat | i < |lines| && !InFence(lines, i)
  }

  /** What one turn does, for the argument about all of them. */
  lemma OneTurn(lines: seq<string>, i: nat)
    requires i < |lines|
    ensures NextOf(lines)[i] <= |lines| && (NextOf(lines)[i] == i <==> Stuck(lines[i])) && i <= NextOf(lines)[i]
    ensures !InFence(lines, i) && NextOf(lines)[i] < |lines| ==> !InFence(lines, NextOf(lines)[i])
    ensures !InFence(lines, i) ==> forall j :: i < j < NextOf(lines)[i] ==> InFence(lines, j) || !Stuck(lines[j])
  {
    NextAt(lines, i);
    NextMoves(lines, i);
    if !InFence(lines, i) {
      TurnStaysOutside(lines, i);
    }
  }

  lemma OutsideConfines(lines: seq<string>)
    ensures Confines(NextOf(lines), Outside(lines))
  {
    var next := NextOf(lines);
    forall i | i in Outside(lines)
      ensures next[i] <= |next| && (next[i] < |next| ==> next[i] in Outside(lines))
    {
      OneTurn(lines, i);
    }
  }

  /** The loop ends for exactly the texts in which every line outside code fences that passes the heading prefix test
      also matches as a heading. */
  lemma HaltsIff(lines: seq<string>)
    ensures Halts(lines) <==> NoStuckLine(lines)
  {
    if NoStuckLine(lines) {
      HaltsIfNoneStuck(lines);
    } else {
      HangsIfOneStuck(lines);
    }
  }

  lemma HaltsIfNoneStuck(lines: seq<string>)
    requires NoStuckLine(lines)
    ensures Halts(lines)
  {
    var next, outside := NextOf(lines), Outside(lines);
    OutsideConfines(lines);
    forall i | i in outside ensures i < next[i] {
      OneTurn(lines, i);
    }
    Advances(next, outside, |lines|);
    Confined(next, outside, |lines|);
  }

  lemma HangsIfOneStuck(lines: seq<string>)
    requires !NoStuckLine(lines)
    ensures !Halts(lines)
  {
    var next, outside := NextOf(lines), Outside(lines);
    OutsideConfines(lines);
    var j: nat :| j < |lines| && !InFence(lines, j) && Stuck(lines[j]);
    OneTurn(lines, j);
    forall i | i in outside && i < j ensures next[i] <= j {
      OneTurn(lines, i);
    }
    forall n: nat ensures IndexAfter(next, n) != |lines| {
      NeverPasses(next, outside, n, j);
    }
  }

  lemma {:induction false} SplitFirst(line: string, rest: string)
    requires '\n' !in line
    ensures Split(line + "\n" + rest) == [line] + Split(rest)
    decreases |line|
  {
    var text := line + "\n" + rest;
    if line == "" {
      assert text[1..] == rest;
    } else {
      assert text[1..] == line[1..] + "\n" + rest;
      SplitFirst(line[1..], rest);
      assert line == [line[0]] + line[1..];
      assert Split(text) == [[line[0]] + line[1..]] + Split(rest);
    }
  }

  lemma StuckReturn(title: string)
    requires title != "" && !JsText.IsSpace(title[0])
    ensures Stuck("# " + title + "\r")
  {
    var s := " " + (title + "\r");
    var line := "# " + title + "\r";
    assert line == "#" + s;
    CustomEmoji.RunOf("#", s, IsHash);
    CustomEmoji.RunOf(" ", title + "\r", JsText.IsSpace);
    assert line[1..] == s;
    StuckIff(line);
    assert !JsText.IsDot(s[|s| - 1]);
  }

  /** Any text that starts with a heading and has Windows line ends hangs the parser. */
  lemma CarriageReturnHangs(title: string, rest: string)
    requires title != "" && !JsText.IsSpace(title[0]) && '\n' !in title
    ensures !Halts(Split("# " + title + "\r" + "\n" + rest))
  {
    var line := "# " + title + "\r";
    var lines := Split(line + "\n" + rest);
    SplitFirst(line, rest);
    StuckReturn(title);
    assert !InFence(lines, 0) && Stuck(lines[0]);
    HaltsIff(lines);
  }

  // ---- What a terminating run returns ----

  /** What a block says about the lines it was made from, in terms of the line tests alone. */
  ghost predicate Describes(b: Block, lines: seq<string>, from: nat, to: nat)
    requires from < to <= |lines|
  {
    || (b.Blank? && to == from + 1 && IsBlank(lines[from]))
    || (b.Heading? && to == from + 1 && HeadingMatch(lines[from]) == Some((b.level, b.text)))
    || (b.Code? && FenceLanguage(lines[from]) == Some(b.language) && FencedBy(b.content, lines, from, to))
    || (b.Quote? && MaximalRun(b.texts, lines, from, to, QuoteRest))
    || (b.Bullets? && MaximalRun(b.items, lines, from, to, BulletRest))
    || (b.Numbered? && MaximalRun(b.items, lines, from, to, NumberRest))
    || (b.Paragraph? && MaximalRun(b.texts, lines, from, to, ParagraphRest))
  }

  /** Every line of the range, and not the one after it, passes the test, and the texts are what the test leaves. */
  ghost predicate MaximalRun(texts: seq<string>, lines: seq<string>, from: nat, to: nat, test: string -> Option<string>)
    requires from <= to <= |lines|
  {
    && |texts| == to - from && (to < |lines| ==> test(lines[to]).None?)
    && forall k :: 0 <= k < |texts| ==> test(lines[from + k]) == Some(texts[k])
  }

  ghost predicate FencedBy(content: string, lines: seq<string>, from: nat, to: nat)
    requires to <= |lines|
  {
    exists end: nat :: FencedTo(lines, from, end, to) && content == Join(lines[from + 1..end])
  }

  /** The content ends at the first closing fence, which belongs to the block, or at the end of the text. */
  ghost predicate FencedTo(lines: seq<string>, from: nat, end: nat, to: nat)
    requires to <= |lines|
  {
    && from < end <= |lines| && (forall k :: from < k < end ==> !IsFenceEnd(lines[k]))
    && if end == |lines| then to == end else to == end + 1 && IsFenceEnd(lines[end])
  }

  /** The condition of the paragraph loop. */
  predicate IsParagraphLine(line: string) {
    && !IsBlank(line) && FenceLanguage(line).None? && !IsHeading(line)
    && QuoteRest(line).None? && BulletRest(line).None? && NumberRest(line).None?
  }

  function ParagraphRest(line: string): Option<string> {
    if IsParagraphLine(line) then Some(line) else None
  }

  /** The spans follow each other from line `from` to line `to`, and each describes its lines. */
  ghost predicate Partition(spans: seq<Span>, lines: seq<string>, from: nat, to: nat)
    requires from <= to <= |lines|
  {
    if spans == [] then from == to
    else
      var last := spans[|spans| - 1];
      && from <= last.from < last.to == to && Describes(last.block, lines, last.from, to)
      && Partition(spans[..|spans| - 1], lines, from, last.from)
  }

  /** Under the order of the tests, a line is of the kind iff it passes the kind's own test. */
  ghost predicate Decides(test: string -> Option<string>, kind: Kind) {
    forall line :: test(line) == if KindOf(line) == kind then Some(Stripped(line)) else None
  }

  lemma RunDescribed(lines: seq<string>, i: nat, kind: Kind, test: string -> Option<string>)
    requires i < |lines| && KindOf(lines[i]) == kind && Decides(test, kind)
    ensures var n := KindEnd(lines, i, kind); i < n && MaximalRun(StrippedLines(lines, i, n), lines, i, n, test)
  {
  }

  lemma QuoteDecides()
    ensures Decides(QuoteRest, QuoteLine)
  {
    forall line ensures QuoteRest(line) == if KindOf(line) == QuoteLine then Some(Stripped(line)) else None {
      KindIffTest(line);
    }
  }

  lemma BulletDecides()
    ensures Decides(BulletRest, BulletLine)
  {
    forall line ensures BulletRest(line) == if KindOf(line) == BulletLine then Some(Stripped(line)) else None {
      KindIffTest(line);
    }
  }

  lemma NumberDecides()
    ensures Decides(NumberRest, NumberLine)
  {
    forall line ensures NumberRest(line) == if KindOf(line) == NumberLine then Some(Stripped(line)) else None {
      KindIffTest(line);
    }
  }

  lemma ParagraphDecides()
    ensures Decides(ParagraphRest, PlainLine)
  {
    forall line ensures ParagraphRest(line) == if KindOf(line) == PlainLine then Some(Stripped(line)) else None {
      KindIffTest(line);
    }
  }

  lemma CodeDescribed(lines: seq<string>, i: nat)
    requires i < |lines| && KindOf(lines[i]) == FenceLine
    ensures Next(lines, i) > i && Describes(BlockAt(lines, i), lines, i, Next(lines, i))
  {
    assert FencedTo(lines, i, FenceEnd(lines, i + 1), Next(lines, i));
  }

  /** A turn that advances pushes a block that describes exactly the lines it passed. */
  lemma TurnDescribed(lines: seq<string>, i: nat)
    requires i < |lines| && !Stuck(lines[i])
    ensures Next(lines, i) > i && Describes(BlockAt(lines, i), lines, i, Next(lines, i))
  {
    KindIffTest(lines[i]);
    var kind := KindOf(lines[i]);
    if kind == QuoteLine { QuoteDecides(); RunDescribed(lines, i, kind, QuoteRest); }
    else if kind == BulletLine { BulletDecides(); RunDescribed(lines, i, kind, BulletRest); }
    else if kind == NumberLine { NumberDecides(); RunDescribed(lines, i, kind, NumberRest); }
    else if kind == PlainLine { ParagraphDecides(); RunDescribed(lines, i, kind, ParagraphRest); }
    else if kind == FenceLine { CodeDescribed(lines, i); }
  }

  // ---- The description leaves no choice ----

  /** The kind of line a block starts with. */
  function StartOf(b: Block): Kind {
    match b
    case Blank => BlankLine
    case Code(_, _) => FenceLine
    case Heading(_, _) => HeadingLine
    case Quote(_) => QuoteLine
    case Bullets(_) => BulletLine
    case Numbered(_) => NumberLine
    case Paragraph(_) => PlainLine
  }

  lemma RunPasses(texts: seq<string>, lines: seq<string>, from: nat, to: nat, test: string -> Option<string>)
    requires from <= to <= |lines| && MaximalRun(texts, lines, from, to, test)
    ensures forall j :: from <= j < to ==> test(lines[j]) == Some(texts[j - from])
  {
    forall j | from <= j < to ensures test(lines[j]) == Some(texts[j - from]) {
      assert test(lines[from + (j - from)]) == Some(texts[j - from]);
    }
  }

  lemma StartsWithKind(b: Block, lines: seq<string>, from: nat, to: nat)
    requires from < to <= |lines| && Describes(b, lines, from, to)
    ensures KindOf(lines[from]) == StartOf(b)
  {
    KindIffTest(lines[from]);
    match b
    case Quote(texts) => RunPasses(texts, lines, from, to, QuoteRest);
    case Bullets(items) => RunPasses(items, lines, from, to, BulletRest);
    case Numbered(items) => RunPasses(items, lines, from, to, NumberRest);
    case Paragraph(texts) => RunPasses(texts, lines, from, to, ParagraphRest);
    case _ =>
  }

  lemma RunOnce(a: seq<string>, to: nat, b: seq<string>, to': nat, lines: seq<string>, from: nat,
                test: string -> Option<string>)
    requires from < to <= |lines| && MaximalRun(a, lines, from, to, test)
    requires from < to' <= |lines| && MaximalRun(b, lines, from, to', test)
    ensures a == b && to == to'
  {
    RunPasses(a, lines, from, to, test);
    RunPasses(b, lines, from, to', test);
    assert to == to';
    forall k | 0 <= k < |a| ensures a[k] == b[k] {
      assert test(lines[from + k]) == Some(a[k]);
    }
  }

  lemma FenceOnce(a: string, to: nat, b: string, to': nat, lines: seq<string>, from: nat)
    requires to <= |lines| && FencedBy(a, lines, from, to)
    requires to' <= |lines| && FencedBy(b, lines, from, to')
    ensures a == b && to == to'
  {
    var end: nat :| FencedTo(lines, from, end, to) && a == Join(lines[from + 1..end]);
    var end': nat :| FencedTo(lines, from, end', to') && b == Join(lines[from + 1..end']);
  }

  /** From one line only one block is described, and it ends at only one line. */
  lemma DescribedOnce(a: Block, to: nat, b: Block, to': nat, lines: seq<string>, from: nat)
    requires from < to <= |lines| && Describes(a, lines, from, to)
    requires from < to' <= |lines| && Describes(b, lines, from, to')
    ensures a == b && to == to'
  {
    StartsWithKind(a, lines, from, to);
    StartsWithKind(b, lines, from, to');
    match a
    case Code(_, _) => FenceOnce(a.content, to, b.content, to', lines, from);
    case Quote(_) => RunOnce(a.texts, to, b.texts, to', lines, from, QuoteRest);
    case Bullets(_) => RunOnce(a.items, to, b.items, to', lines, from, BulletRest);
    case Numbered(_) => RunOnce(a.items, to, b.items, to', lines, from, NumberRest);
    case Paragraph(_) => RunOnce(a.texts, to, b.texts, to', lines, from, ParagraphRest);
    case _ =>
  }

  lemma {:induction false} FirstSpan(spans: seq<Span>, lines: seq<string>, from: nat, to: nat)
    requires from <= to <= |lines| && Partition(spans, lines, from, to) && spans != []
    ensures var first := spans[0];
            && first.from == from < first.to <= to && Describes(first.block, lines, from, first.to)
            && Partition(spans[1..], lines, first.to, to)
    decreases |spans|
  {
    var init, last := spans[..|spans| - 1], spans[|spans| - 1];
    if init != [] {
      FirstSpan(init, lines, from, last.from);
      assert spans[1..][..|spans| - 2] == init[1..];
    }
  }

  /** There is at most one way to cut the lines into described blocks, so the parser returns the only one. */
  lemma {:induction false} OnlyPartition(a: seq<Span>, b: seq<Span>, lines: seq<string>, from: nat, to: nat)
    requires from <= to <= |lines| && Partition(a, lines, from, to) && Partition(b, lines, from, to)
    ensures a == b
    decreases |a|
  {
    if a == [] && b == [] {
    } else if a == [] {
      FirstSpan(b, lines, from, to);
    } else if b == [] {
      FirstSpan(a, lines, from, to);
    } else {
      FirstSpan(a, lines, from, to);
      FirstSpan(b, lines, from, to);
      DescribedOnce(a[0].block, a[0].to, b[0].block, b[0].to, lines, from);
      OnlyPartition(a[1..], b[1..], lines, a[0].to, to);
      assert a == [a[0]] + a[1..] && b == [b[0]] + b[1..];
    }
  }

  // ---- The program ----

  /** The loop of a quote, a list or a paragraph: lines are taken while they pass the test. */
  method TakeLines(lines: seq<string>, start: nat, test: string -> bool, strip: string -> string)
    returns (texts: seq<string>, index: nat)
    requires start <= |lines|
    ensures index == RunEnd(lines, start, test)
    ensures texts == MapLines(lines, start, index, strip)
  {
    texts, index := [], start;
    while index < |lines| && test(lines[index])
      invariant start <= index <= |lines|
      invariant RunEnd(lines, index, test) == RunEnd(lines, start, test)
      invariant texts == MapLines(lines, start, index, strip)
    {
      texts := texts + [strip(lines[index])];
      index := index + 1;
    }
  }

  /** The loop of a code block. */
  method TakeCode(lines: seq<string>, start: nat) returns (codeLines: seq<string>, index: nat)
    requires start <= |lines|
    ensures index == FenceEnd(lines, start)
    ensures codeLines == lines[start..index]
  {
    codeLines, index := [], start;
    while index < |lines| && !IsFenceEnd(lines[index])
      invariant start <= index <= |lines|
      invariant FenceEnd(lines, index) == FenceEnd(lines, start)
      invariant codeLines == lines[start..index]
    {
      codeLines := codeLines + [lines[index]];
      index := index + 1;
    }
  }

  method Turn(lines: seq<string>, start: nat) returns (node: Block, index: nat)
    requires start < |lines|
    ensures node == BlockAt(lines, start) && index == Next(lines, start)
  {
    var line := lines[start];
    var texts: seq<string>;
    index := start;
    match KindOf(line)
    case BlankLine => node := Blank; index := index + 1;
    case FenceLine =>
      texts, index := TakeCode(lines, index + 1);
      node := Code(FenceLanguage(line).value, Join(texts));
      if index < |lines| { index := index + 1; }
    case HeadingLine =>
      node := Heading(HeadingMatch(line).value.0, HeadingMatch(line).value.1);
      index := index + 1;
    case QuoteLine => texts, index := TakeLines(lines, index, IsOf(QuoteLine), Stripped); node := Quote(texts);
    case BulletLine => texts, index := TakeLines(lines, index, IsOf(BulletLine), Stripped); node := Bullets(texts);
    case NumberLine => texts, index := TakeLines(lines, index, IsOf(NumberLine), Stripped); node := Numbered(texts);
    case _ => texts, index := TakeLines(lines, index, IsOf(PlainLine), Stripped); node := Paragraph(texts);
  }

  lemma Append(spans: seq<Span>, lines: seq<string>, last: Span)
    requires last.from < last.to <= |lines| && Partition(spans, lines, 0, last.from)
    requires Describes(last.block, lines, last.from, last.to)
    ensures Partition(spans + [last], lines, 0, last.to)
  {
    assert (spans + [last])[..|spans|] == spans;
  }

  /** Where the outer loop stands after some turns. */
  ghost predicate Progress(lines: seq<string>, spans: seq<Span>, index: nat, turns: nat) {
    index <= |lines| && index == IndexAfter(NextOf(lines), turns) && Partition(spans, lines, 0, index)
  }

  lemma StuckAt(lines: seq<string>, spans: seq<Span>, index: nat, turns: nat)
    requires Progress(lines, spans, index, turns) && index < |lines| && Stuck(lines[index])
    ensures !Halts(lines)
  {
    OutsideConfines(lines);
    Confined(NextOf(lines), Outside(lines), turns);
    HaltsIff(lines);
  }

  lemma AtEnd(lines: seq<string>, spans: seq<Span>, turns: nat)
    requires Progress(lines, spans, |lines|, turns)
    ensures Halts(lines) && Partition(spans, lines, 0, |lines|)
  {
  }

  /** One turn for the outer loop: it stays where it is iff the line is stuck, and else describes what it passed. */
  method PushBlock(lines: seq<string>, spans: seq<Span>, index: nat, ghost turns: nat)
    returns (r: seq<Span>, next: nat)
    requires Progress(lines, spans, index, turns) && index < |lines|
    ensures index <= next && (next == index <==> Stuck(lines[index]))
    ensures index < next ==> next <= |lines| && Progress(lines, r, next, turns + 1)
  {
    var node;
    node, next := Turn(lines, index);
    OneTurn(lines, index);
    NextAt(lines, index);
    r := spans + [Span(node, index, next)];
    if index < next {
      TurnDescribed(lines, index);
      Append(spans, lines, Span(node, index, next));
    }
  }

  /** The block loop.  None stands for the run that never returns: a turn that leaves `index` where it was repeats
      itself for ever. */
  method ParseLines(lines: seq<string>) returns (nodes: Option<seq<Span>>)
    ensures nodes.Some? <==> Halts(lines)
    ensures nodes.Some? ==> Partition(nodes.value, lines, 0, |lines|)
  {
    var index := 0;
    var spans := [];
    ghost var turns := 0;
    while index < |lines|
      invariant index <= |lines| && Progress(lines, spans, index, turns)
      decreases |lines| - index
    {
      var pushed, next := PushBlock(lines, spans, index, turns);
      if next == index {
        StuckAt(lines, spans, index, turns);
        return None;
      }
      spans, index := pushed, next;
      turns := turns + 1;
    }
    AtEnd(lines, spans, turns);
    return Some(spans);
  }

  /** parseMarkdown */
  method ParseMarkdown(text: string) returns (nodes: Option<seq<Span>>)
    ensures text == "" ==> nodes == Some([])
    ensures text != "" ==> (nodes.Some? <==> NoStuckLine(Split(text)))
    ensures text != "" && nodes.Some? ==> Partition(nodes.value, Split(text), 0, |Split(text)|)
  {
    if text == "" { return Some([]); }
    nodes := ParseLines(Split(text));
    HaltsIff(Split(text));
  }
}
