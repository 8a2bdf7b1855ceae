/** tokenizeInline of client/src/lib/markdown.ts. */
module InlineMarkdown {
  import opened Options
  import opened JsText
  import CustomEmoji

  /** Lines 5-24.  An italic token also remembers which of the two marks it was written with. */
  datatype Token =
    | Text(content: string)
    | Bold(content: string)
    | Italic(mark: char, content: string)
    | Code(content: string)
    | CodeBlock(language: string, content: string)
    | Strikethrough(content: string)
    | Underline(content: string)
    | Spoiler(content: string)
    | Highlight(content: string)
    | Link(content: string)
    | Br
    | Emoji(content: string, name: string, id: string)

  /** The text a token was made from: its content with the delimiters put back. */
  function Source(t: Token): string {
    match t
    case Text(c) => c
    case Bold(c) => "**" + c + "**"
    case Italic(m, c) => [m] + c + [m]
    case Code(c) => "`" + c + "`"
    case CodeBlock(l, c) => "```" + l + "\n" + c + "```"
    case Strikethrough(c) => "~~" + c + "~~"
    case Underline(c) => "__" + c + "__"
    case Spoiler(c) => "||" + c + "||"
    case Highlight(c) => "==" + c + "=="
    case Link(c) => c
    case Br => "\n"
    case Emoji(raw, _, _) => raw
  }

  // ---- The regular expressions, in the order of the branches ----

  /** The first position of sub in s. */
  function Find(s: string, sub: string): (r: Option<nat>)
    ensures r.Some? ==> r.value <= |s| && sub <= s[r.value..] && forall i :: 0 <= i < r.value ==> !(sub <= s[i..])
    ensures r.None? ==> forall i :: 0 <= i <= |s| ==> !(sub <= s[i..])
    decreases |s|
  {
    if sub <= s then
      assert s[0..] == s;
      Some(0)
    else if s == "" then None
    else
      var r := Find(s[1..], sub);
      assert forall i :: 1 <= i <= |s| ==> s[i..] == s[1..][i - 1..];
      assert s[0..] == s;
      match r
      case None => None
      case Some(i) => Some(i + 1)
  }

  /** Up to and including the first `>`, or everything. */
  function Bracket(s: string): (r: string)
    ensures r <= s && forall i :: 0 <= i < |r| - 1 ==> r[i] != '>'
    ensures r == s || (r != "" && r[|r| - 1] == '>')
  {
    var end := CustomEmoji.Run(s, Not('>'));
    if end >= |s| then s else s[..end + 1]
  }

  function EmojiAt(s: string): Option<Token> {
    if s == "" || s[0] != '<' || '>' !in s then None else EmojiOf(Bracket(s))
  }

  function EmojiOf(raw: string): Option<Token> {
    match CustomEmoji.Parse(raw)
    case None => None
    case Some(e) => Some(Emoji(e.raw, e.name, e.id))
  }

  predicate IsLanguageChar(c: char) { CustomEmoji.IsNameChar(c) || c == '+' || c == '-' }

  /** `/^```([A-Za-z0-9_+-]*)\n([\s\S]*?)```/` */
  function CodeBlockAt(s: string): Option<Token> {
    if !("```" <= s) then None
    else
      var rest := s[3..];
      var n := CustomEmoji.Run(rest, IsLanguageChar);
      if n >= |rest| || rest[n] != '\n' then None
      else
        var body := rest[n + 1..];
        match Find(body, "```")
        case None => None
        case Some(end) => Some(CodeBlock(rest[..n], body[..end]))
  }

  predicate IsCodeChar(c: char) { c != '`' && c != '\n' }

  predicate IsSpoilerChar(c: char) { c != '|' }

  /** `[^M]` */
  function Not(mark: char): char -> bool { c => c != mark }

  /** `/^`([^`\n]+)`/` */
  function CodeAt(s: string): Option<Token> {
    if !("`" <= s) then None
    else
      var n := CustomEmoji.Run(s[1..], IsCodeChar);
      if n == 0 || 1 + n >= |s| || s[1 + n] != '`' then None else Some(Code(s[1..1 + n]))
  }

  /** `/^\|\|([^|]+)\|\|/` */
  function SpoilerAt(s: string): Option<Token> {
    if !("||" <= s) then None
    else
      var n := CustomEmoji.Run(s[2..], IsSpoilerChar);
      if n == 0 || !("||" <= s[2 + n..]) then None else Some(Spoiler(s[2..2 + n]))
  }

  /** s is two marks, one or more characters other than line terminators, and two marks from position p. */
  predicate PairedTo(s: string, mark: char, p: nat) {
    3 <= p && p + 2 <= |s| && s[p] == mark && s[p + 1] == mark && forall i :: 2 <= i < p ==> IsDot(s[i])
  }

  /** `/^MM(.+?)MM/`: the smallest end a lazy quantifier finds, scanning from p. */
  function PairEnd(s: string, mark: char, p: nat): (r: Option<nat>)
    requires 3 <= p && forall i :: 2 <= i < p - 1 && i < |s| ==> IsDot(s[i])
    requires forall q :: 3 <= q < p ==> !PairedTo(s, mark, q)
    ensures r.Some? ==> PairedTo(s, mark, r.value) && forall q :: 3 <= q < r.value ==> !PairedTo(s, mark, q)
    ensures r.None? ==> forall q :: !PairedTo(s, mark, q)
    decreases |s| - p
  {
    if p + 2 > |s| || !IsDot(s[p - 1]) then None
    else if s[p] == mark && s[p + 1] == mark then Some(p)
    else PairEnd(s, mark, p + 1)
  }

  function Pair(s: string, mark: char): (r: Option<string>)
    ensures r.Some? ==> [mark, mark] + r.value + [mark, mark] <= s && PairedTo(s, mark, 2 + |r.value|)
                        && forall q :: 3 <= q < 2 + |r.value| ==> !PairedTo(s, mark, q)
    ensures r.None? ==> !([mark, mark] <= s) || forall q :: !PairedTo(s, mark, q)
  {
    if !([mark, mark] <= s) then None
    else match PairEnd(s, mark, 3)
      case None => None
      case Some(p) =>
        assert s == [mark, mark] + s[2..p] + [mark, mark] + s[p + 2..];
        Some(s[2..p])
  }

  /** `/^M([^M]+)M/` */
  function ItalicAt(s: string, mark: char): Option<Token> {
    if !([mark] <= s) then None
    else
      var n := CustomEmoji.Run(s[1..], Not(mark));
      if n == 0 || 1 + n >= |s| then None else Some(Italic(mark, s[1..1 + n]))
  }

  /** The length of `https?://` at the front of s. */
  function UrlPrefix(s: string): nat {
    if "https://" <= s then 8 else if "http://" <= s then 7 else 0
  }

  predicate IsUrlChar(c: char) { !IsSpace(c) && c !in "<>[]()" }

  /** `/^https?:\/\/[^\s<>[\]()]+/` */
  function LinkAt(s: string): Option<Token> {
    var h := UrlPrefix(s);
    if h == 0 then None
    else
      var n := CustomEmoji.Run(s[h..], IsUrlChar);
      if n == 0 then None else Some(Link(s[..h + n]))
  }

  /** `/[*_`~|=\n]|https?:\/\/|</` matches at the front of s. */
  predicate SpecialAt(s: string) {
    s != "" && (s[0] in "*_`~|=\n<" || UrlPrefix(s) > 0)
  }

  function NextSpecial(s: string): (r: Option<nat>)
    ensures r.Some? ==> r.value < |s| && SpecialAt(s[r.value..]) && forall i :: 0 <= i < r.value ==> !SpecialAt(s[i..])
    ensures r.None? ==> forall i :: 0 <= i < |s| ==> !SpecialAt(s[i..])
    decreases |s|
  {
    if s == "" then None
    else if SpecialAt(s) then
      assert s[0..] == s;
      Some(0)
    else
      var r := NextSpecial(s[1..]);
      assert forall i :: 1 <= i <= |s| ==> s[i..] == s[1..][i - 1..];
      assert s[0..] == s;
      match r
      case None => None
      case Some(i) => Some(i + 1)
  }

  function TextAt(s: string): Token {
    match NextSpecial(s)
    case None => Text(s)
    case Some(n) => if n == 0 then Text(s[..1]) else Text(s[..n])
  }

  function PairAt(s: string, mark: char): Option<Token> {
    match Pair(s, mark)
    case None => None
    case Some(c) =>
      Some(if mark == '=' then Highlight(c) else if mark == '*' then Bold(c)
           else if mark == '_' then Underline(c) else Strikethrough(c))
  }

  function BrAt(s: string): Option<Token> {
    if "\n" <= s then Some(Br) else None
  }

  /** The branches of the loop body in the order in which they are tried. */
  function Branch(s: string, k: nat): Option<Token> {
    match k
    case 0 => EmojiAt(s)
    case 1 => CodeBlockAt(s)
    case 2 => CodeAt(s)
    case 3 => SpoilerAt(s)
    case 4 => PairAt(s, '=')
    case 5 => PairAt(s, '*')
    case 6 => PairAt(s, '_')
    case 7 => PairAt(s, '~')
    case 8 => ItalicAt(s, '*')
    case 9 => ItalicAt(s, '_')
    case 10 => LinkAt(s)
    case 11 => BrAt(s)
    case _ => None
  }

  function Branches(s: string): (r: seq<Option<Token>>)
    ensures |r| == 12 && forall k :: 0 <= k < 12 ==> r[k] == Branch(s, k)
  {
    seq(12, k requires 0 <= k < 12 => Branch(s, k))
  }

  function FirstMatch(branches: seq<Option<Token>>): Option<Token> {
    if branches == [] then None
    else if branches[0].Some? then branches[0]
    else FirstMatch(branches[1..])
  }

  /** One turn of the loop. */
  function FirstToken(s: string): Token {
    match FirstMatch(Branches(s))
    case Some(t) => t
    case None => TextAt(s)
  }

  // ---- Each branch consumes the source of its token ----

  predicate Consumes(t: Token, s: string) {
    "" != Source(t) <= s
  }

  lemma EmojiPrefix(s: string)
    requires EmojiAt(s).Some?
    ensures Consumes(EmojiAt(s).value, s) && Source(EmojiAt(s).value) == Bracket(s)
  {
    Bracketed(s);
    WholeEmoji(Bracket(s));
  }

  lemma Bracketed(s: string)
    requires s != "" && s[0] == '<' && '>' in s
    ensures var raw := Bracket(s); "" != raw <= s && raw[0] == '<' && raw[|raw| - 1] == '>'
  {
  }

  lemma WholeEmoji(raw: string)
    requires raw != "" && raw[0] == '<' && raw[|raw| - 1] == '>' && EmojiOf(raw).Some?
    ensures EmojiOf(raw).value.Emoji? && EmojiOf(raw).value.content == raw
  {
    CustomEmoji.RawIsWhole(raw);
  }

  lemma CutAround(s: string, n: nat, sub: string)
    requires n <= |s| && sub <= s[n..]
    ensures s == s[..n] + (sub + s[n..][|sub|..])
  {
  }

  lemma Glue(a: string, b: string, c: string, d: string)
    ensures a + (b + ("\n" + (c + (a + d)))) == (a + b + "\n" + c + a) + d
  {
  }

  lemma CodeBlockPrefix(s: string)
    requires CodeBlockAt(s).Some?
    ensures Consumes(CodeBlockAt(s).value, s)
  {
    var t := CodeBlockAt(s).value;
    var rest := s[3..];
    var n := CustomEmoji.Run(rest, IsLanguageChar);
    var body := rest[n + 1..];
    var end := Find(body, "```").value;
    assert s == "```" + rest;
    CustomEmoji.CutAt(rest, n);
    CutAround(body, end, "```");
    Glue("```", t.language, t.content, body[end..][3..]);
  }

  lemma Enclosed(s: string, mark: char, n: nat)
    requires n + 1 < |s| && s[0] == mark && s[n + 1] == mark
    ensures [mark] + s[1..1 + n] + [mark] <= s
  {
    assert s == s[..1] + s[1..1 + n] + s[1 + n..2 + n] + s[2 + n..];
  }

  lemma CodePrefix(s: string)
    requires CodeAt(s).Some?
    ensures Consumes(CodeAt(s).value, s)
  {
    Enclosed(s, '`', |CodeAt(s).value.content|);
  }

  lemma SpoilerPrefix(s: string)
    requires SpoilerAt(s).Some?
    ensures Consumes(SpoilerAt(s).value, s)
  {
    var n := |SpoilerAt(s).value.content|;
    assert s == s[..2] + s[2..2 + n] + s[2 + n..4 + n] + s[4 + n..];
    assert s[2 + n..4 + n] == s[2 + n..][..2] == "||";
  }

  lemma PairPrefix(s: string, mark: char)
    requires PairAt(s, mark).Some? && mark in "=*_~"
    ensures Consumes(PairAt(s, mark).value, s)
  {
  }

  lemma ItalicPrefix(s: string, mark: char)
    requires ItalicAt(s, mark).Some?
    ensures Consumes(ItalicAt(s, mark).value, s)
  {
    Enclosed(s, mark, |ItalicAt(s, mark).value.content|);
  }

  lemma TextPrefix(s: string)
    requires s != ""
    ensures Consumes(TextAt(s), s)
  {
  }

  lemma LinkPrefix(s: string)
    requires LinkAt(s).Some?
    ensures Consumes(LinkAt(s).value, s)
  {
  }

  lemma BranchPrefix(s: string, k: nat)
    requires k < 12 && Branch(s, k).Some?
    ensures Consumes(Branch(s, k).value, s)
  {
    match k
    case 0 => EmojiPrefix(s);
    case 1 => CodeBlockPrefix(s);
    case 2 => CodePrefix(s);
    case 3 => SpoilerPrefix(s);
    case 4 => PairPrefix(s, '=');
    case 5 => PairPrefix(s, '*');
    case 6 => PairPrefix(s, '_');
    case 7 => PairPrefix(s, '~');
    case 8 => ItalicPrefix(s, '*');
    case 9 => ItalicPrefix(s, '_');
    case 10 => LinkPrefix(s);
    case _ =>
  }

  /** Which branch is taken. */
  lemma Taken(branches: seq<Option<Token>>) returns (k: nat)
    requires FirstMatch(branches).Some?
    ensures k < |branches| && branches[k].Some? && FirstMatch(branches) == branches[k]
    ensures forall i :: 0 <= i < k ==> branches[i].None?
  {
    k := 0;
    if branches[0].None? {
      var j := Taken(branches[1..]);
      k := j + 1;
    }
  }

  lemma {:induction false} IsTaken(branches: seq<Option<Token>>, k: nat)
    requires k < |branches| && branches[k].Some?
    requires forall i :: 0 <= i < k ==> branches[i].None?
    ensures FirstMatch(branches) == branches[k]
    decreases k
  {
    if k > 0 {
      IsTaken(branches[1..], k - 1);
    }
  }

  /** Whatever branch is taken, the token's source is a non-empty prefix of what remained. */
  lemma FirstTokenPrefix(s: string)
    requires s != ""
    ensures "" != Source(FirstToken(s)) <= s
  {
    if FirstMatch(Branches(s)).Some? {
      var k := Taken(Branches(s));
      BranchPrefix(s, k);
    } else {
      TextPrefix(s);
    }
  }

  // ---- The loop ----

  /** Every first token uses up some of the text. */
  ghost predicate Advancing<T>(first: string -> T, source: T -> string) {
    forall s :: s != "" ==> "" != source(first(s)) <= s
  }

  lemma FirstTokenAdvances()
    ensures Advancing(FirstToken, Source)
  {
    forall s | s != "" ensures "" != Source(FirstToken(s)) <= s { FirstTokenPrefix(s); }
  }

  /** The tokens of a text when each turn of the loop pushes the first token of what remains. */
  function TokenizeBy<T>(s: string, first: string -> T, source: T -> string): seq<T>
    requires Advancing(first, source)
    decreases |s|
  {
    if s == "" then []
    else
      var t := first(s);
      assert "" != source(t) <= s;
      [t] + TokenizeBy(s[|source(t)|..], first, source)
  }

  function Tokenize(s: string): seq<Token> {
    FirstTokenAdvances();
    TokenizeBy(s, FirstToken, Source)
  }

  /** The loop: `remaining` shrinks on every turn, so it ends. */
  method TokenLoop<T>(text: string, first: string -> T, source: T -> string) returns (tokens: seq<T>)
    requires Advancing(first, source)
    ensures tokens == TokenizeBy(text, first, source)
  {
    tokens := [];
    var remaining := text;
    while |remaining| > 0
      invariant tokens + TokenizeBy(remaining, first, source) == TokenizeBy(text, first, source)
      decreases |remaining|
    {
      var token := first(remaining);
      assert "" != source(token) <= remaining;
      ghost var rest := TokenizeBy(remaining[|source(token)|..], first, source);
      assert tokens + ([token] + rest) == tokens + [token] + rest;
      tokens := tokens + [token];
      remaining := remaining[|source(token)|..];
    }
  }

  /** tokenizeInline */
  method TokenizeInline(text: string) returns (tokens: seq<Token>)
    ensures tokens == Tokenize(text)
  {
    FirstTokenAdvances();
    tokens := TokenLoop(text, FirstToken, Source);
  }

  function SourcesBy<T>(tokens: seq<T>, source: T -> string): string {
    if tokens == [] then "" else source(tokens[0]) + SourcesBy(tokens[1..], source)
  }

  function Sources(tokens: seq<Token>): string {
    SourcesBy(tokens, Source)
  }

  lemma {:induction false} LosslessBy<T>(text: string, first: string -> T, source: T -> string)
    requires Advancing(first, source)
    ensures SourcesBy(TokenizeBy(text, first, source), source) == text
    decreases |text|
  {
    if text != "" {
      var t := first(text);
      assert "" != source(t) <= text;
      LosslessBy(text[|source(t)|..], first, source);
      assert TokenizeBy(text, first, source)[1..] == TokenizeBy(text[|source(t)|..], first, source);
      assert text == source(t) + text[|source(t)|..];
    }
  }

  /** Nothing is lost: the sources of the tokens, in order, are the text. */
  lemma Lossless(text: string)
    ensures Sources(Tokenize(text)) == text
  {
    FirstTokenAdvances();
    LosslessBy(text, FirstToken, Source);
  }

  // ---- The same text is read the same way ----

  const Heads := "<``|=*_~*_h\n"

  lemma BranchHead(s: string, k: nat)
    requires k < 12 && Branch(s, k).Some?
    ensures s != "" && s[0] == Heads[k] && SpecialAt(s)
    ensures k < 11 ==> 2 <= |s|
  {
  }

  lemma CodeBlockAgain(s: string)
    requires CodeBlockAt(s).Some?
    ensures CodeBlockAt(Source(CodeBlockAt(s).value)) == CodeBlockAt(s)
  {
    var t := CodeBlockAt(s).value;
    var body := s[3..][|t.language| + 1..];
    CutAround(body, |t.content|, "```");
    ReadCodeBlock(t.language, t.content, body);
  }

  lemma ReadCodeBlock(language: string, content: string, body: string)
    requires forall i :: 0 <= i < |language| ==> IsLanguageChar(language[i])
    requires content + "```" <= body && Find(body, "```") == Some(|content|)
    ensures CodeBlockAt("```" + language + "\n" + content + "```") == Some(CodeBlock(language, content))
  {
    var own := content + "```";
    var s := "```" + language + "\n" + content + "```";
    AfterFence(language, content);
    AfterLanguage(language, own);
    FindShorter(own, body, "```", |content|);
    assert own[..|content|] == content;
  }

  lemma AfterFence(language: string, content: string)
    ensures var s := "```" + language + "\n" + content + "```";
            "```" <= s && s[3..] == language + ("\n" + (content + "```"))
  {
    Glue("```", language, content, "");
  }

  lemma AfterLanguage(language: string, own: string)
    requires forall i :: 0 <= i < |language| ==> IsLanguageChar(language[i])
    ensures var rest := language + ("\n" + own);
            && CustomEmoji.Run(rest, IsLanguageChar) == |language| < |rest| && rest[|language|] == '\n'
            && rest[..|language|] == language && rest[|language| + 1..] == own
  {
    CustomEmoji.RunOf(language, "\n" + own, IsLanguageChar);
  }

  lemma {:induction false} FindShorter(a: string, b: string, sub: string, n: nat)
    requires a <= b && Find(b, sub) == Some(n) && n <= |a| && sub <= a[n..]
    ensures Find(a, sub) == Some(n)
    decreases n
  {
    if n == 0 {
      assert a[0..] == a;
    } else {
      assert !(sub <= b) && !(sub <= a);
      assert Find(b[1..], sub) == Some(n - 1);
      assert a[1..][n - 1..] == a[n..];
      FindShorter(a[1..], b[1..], sub, n - 1);
    }
  }

  /** A piece of a run passes the run's test. */
  lemma SliceAll(s: string, from: nat, end: nat, p: char -> bool)
    requires from <= end <= |s| && forall i :: 0 <= i < end - from ==> p(s[from..][i])
    ensures forall i :: 0 <= i < end - from ==> p(s[from..end][i])
  {
    assert s[from..][..end - from] == s[from..end];
  }

  lemma CodeAgain(s: string)
    requires CodeAt(s).Some?
    ensures var src := Source(CodeAt(s).value); CodeAt(src) == CodeAt(s) && CodeBlockAt(src).None?
  {
    var c := CodeAt(s).value.content;
    var src := Source(CodeAt(s).value);
    assert src[1..] == c + "`" && src[1 + |c|] == '`' && src[1..1 + |c|] == c;
    SliceAll(s, 1, 1 + |c|, IsCodeChar);
    CustomEmoji.RunOf(c, "`", IsCodeChar);
    assert src[1] == c[0] == s[1..][0];
  }

  lemma SpoilerAgain(s: string)
    requires SpoilerAt(s).Some?
    ensures SpoilerAt(Source(SpoilerAt(s).value)) == SpoilerAt(s)
  {
    var c := SpoilerAt(s).value.content;
    var src := Source(SpoilerAt(s).value);
    assert src[2..] == c + "||" && src[2 + |c|..] == "||" && src[2..2 + |c|] == c;
    SliceAll(s, 2, 2 + |c|, IsSpoilerChar);
    CustomEmoji.RunOf(c, "||", IsSpoilerChar);
  }

  lemma PairedLonger(a: string, b: string, mark: char, q: nat)
    requires a <= b
    ensures PairedTo(a, mark, q) ==> PairedTo(b, mark, q)
  {
  }

  lemma PairAgain(s: string, mark: char)
    requires Pair(s, mark).Some?
    ensures Pair([mark, mark] + Pair(s, mark).value + [mark, mark], mark) == Pair(s, mark)
  {
    var c := Pair(s, mark).value;
    var src := [mark, mark] + c + [mark, mark];
    var p := 2 + |c|;
    forall q | 3 <= q < p ensures !PairedTo(src, mark, q) {
      PairedLonger(src, s, mark, q);
    }
    assert PairedTo(src, mark, p);
    assert src[2..p] == c;
  }

  lemma PairAtAgain(s: string, mark: char)
    requires PairAt(s, mark).Some? && mark in "=*_~"
    ensures PairAt(Source(PairAt(s, mark).value), mark) == PairAt(s, mark)
  {
    PairAgain(s, mark);
  }

  lemma ItalicAgain(s: string, mark: char)
    requires ItalicAt(s, mark).Some?
    ensures ItalicAt(Source(ItalicAt(s, mark).value), mark) == ItalicAt(s, mark)
  {
    var c := ItalicAt(s, mark).value.content;
    var src := [mark] + c + [mark];
    assert src[1..] == c + [mark] && src[1 + |c|] == mark && src[1..1 + |c|] == c;
    SliceAll(s, 1, 1 + |c|, Not(mark));
    CustomEmoji.RunOf(c, [mark], Not(mark));
  }

  lemma ItalicIsNotPair(s: string, mark: char)
    requires ItalicAt(s, mark).Some?
    ensures !([mark, mark] <= Source(ItalicAt(s, mark).value))
  {
    var c := ItalicAt(s, mark).value.content;
    SliceAll(s, 1, 1 + |c|, Not(mark));
    assert Not(mark)(c[0]);
    assert ([mark] + c + [mark])[1] == c[0];
  }

  lemma NoPair(s: string, mark: char)
    requires !([mark, mark] <= s)
    ensures PairAt(s, mark).None?
  {
  }

  lemma LinkAgain(s: string)
    requires LinkAt(s).Some?
    ensures LinkAt(Source(LinkAt(s).value)) == LinkAt(s)
  {
    var h := UrlPrefix(s);
    var src := LinkAt(s).value.content;
    SameUrlPrefix(s, src);
    assert src[h..] == s[h..][..|src| - h];
    assert src[h..] + "" == src[h..];
    CustomEmoji.RunOf(src[h..], "", IsUrlChar);
    assert src[..h + (|src| - h)] == src;
  }

  lemma SameUrlPrefix(s: string, src: string)
    requires src <= s && 0 < UrlPrefix(s) < |src|
    ensures UrlPrefix(src) == UrlPrefix(s)
  {
    assert src[..UrlPrefix(s)] == s[..UrlPrefix(s)];
  }

  lemma BranchAgain(s: string, k: nat)
    requires k < 12 && Branch(s, k).Some?
    ensures Branch(Source(Branch(s, k).value), k) == Branch(s, k)
  {
    match k
    case 0 => EmojiAgain(s);
    case 1 => CodeBlockAgain(s);
    case 2 => CodeAgain(s);
    case 3 => SpoilerAgain(s);
    case 4 => PairAtAgain(s, '=');
    case 5 => PairAtAgain(s, '*');
    case 6 => PairAtAgain(s, '_');
    case 7 => PairAtAgain(s, '~');
    case 8 => ItalicAgain(s, '*');
    case 9 => ItalicAgain(s, '_');
    case 10 => LinkAgain(s);
    case _ =>
  }

  lemma EmojiAgain(s: string)
    requires EmojiAt(s).Some?
    ensures EmojiAt(Source(EmojiAt(s).value)) == EmojiAt(s)
  {
    EmojiPrefix(s);
    Bracketed(s);
    BracketOnce(Bracket(s), "");
    assert Bracket(s) + "" == Bracket(s);
  }

  lemma BracketOnce(raw: string, rest: string)
    requires raw != "" && raw[|raw| - 1] == '>' && forall i :: 0 <= i < |raw| - 1 ==> raw[i] != '>'
    ensures Bracket(raw + rest) == raw
  {
    var n := |raw| - 1;
    var after := ">" + rest;
    assert raw + rest == raw[..n] + after;
    CustomEmoji.RunOf(raw[..n], after, Not('>'));
  }

  /** Among branches that start with the same character, the source of the later one is not taken by the earlier. */
  lemma EarlierMisses(s: string, k: nat, i: nat)
    requires i < k < 12 && Branch(s, k).Some?
    ensures Branch(Source(Branch(s, k).value), i).None?
  {
    BranchPrefix(s, k);
    BranchHead(s, k);
    if Heads[i] == Heads[k] {
      SameHead(s, k, i);
    } else {
      OtherHead(Source(Branch(s, k).value), s, k, i);
    }
  }

  lemma OtherHead(src: string, s: string, k: nat, i: nat)
    requires i < k < 12 && s != "" && s[0] == Heads[k] != Heads[i] && "" != src <= s
    ensures Branch(src, i).None?
  {
    if Branch(src, i).Some? {
      BranchHead(src, i);
      assert false;
    }
  }

  lemma SameHead(s: string, k: nat, i: nat)
    requires i < k < 12 && Heads[i] == Heads[k] && Branch(s, k).Some?
    ensures Branch(Source(Branch(s, k).value), i).None?
  {
    assert (i, k) in {(1, 2), (5, 8), (6, 9)};
    if k == 2 { CodeIsNotBlock(s); }
    else if k == 8 { ItalicIsNotBold(s); }
    else { ItalicIsNotUnderline(s); }
  }

  lemma CodeIsNotBlock(s: string)
    requires Branch(s, 2).Some?
    ensures Branch(Source(Branch(s, 2).value), 1).None?
  {
    CodeAgain(s);
  }

  lemma ItalicIsNotBold(s: string)
    requires Branch(s, 8).Some?
    ensures Branch(Source(Branch(s, 8).value), 5).None?
  {
    ItalicIsNotPair(s, '*');
    NoPair(Source(ItalicAt(s, '*').value), '*');
  }

  lemma ItalicIsNotUnderline(s: string)
    requires Branch(s, 9).Some?
    ensures Branch(Source(Branch(s, 9).value), 6).None?
  {
    ItalicIsNotPair(s, '_');
    NoPair(Source(ItalicAt(s, '_').value), '_');
  }

  lemma SpecialPrefix(a: string, b: string)
    requires a <= b && SpecialAt(a)
    ensures SpecialAt(b)
  {
  }

  lemma TextAgain(s: string)
    requires s != "" && FirstMatch(Branches(s)).None?
    ensures FirstToken(Source(TextAt(s))) == TextAt(s)
  {
    var src := Source(TextAt(s));
    TextPrefix(s);
    if FirstMatch(Branches(src)).Some? {
      var k := Taken(Branches(src));
      BranchHead(src, k);
      SpecialPrefix(src, s);
      assert s[0..] == s;
      assert src == "\n";
      NoneOf(Branches(s), 11);
    } else {
      TextOnce(s);
    }
  }

  lemma {:induction false} NoneOf(branches: seq<Option<Token>>, k: nat)
    requires k < |branches| && FirstMatch(branches).None?
    ensures branches[k].None?
    decreases k
  {
    if k > 0 {
      NoneOf(branches[1..], k - 1);
    }
  }

  lemma TextOnce(s: string)
    requires s != ""
    ensures TextAt(Source(TextAt(s))) == TextAt(s)
  {
    var src := Source(TextAt(s));
    TextPrefix(s);
    if NextSpecial(src).Some? {
      var n := NextSpecial(src).value;
      SpecialPrefix(src[n..], s[n..]);
    }
  }

  lemma FirstAgain(s: string)
    requires s != ""
    ensures "" != Source(FirstToken(s)) && FirstToken(Source(FirstToken(s))) == FirstToken(s)
  {
    FirstTokenPrefix(s);
    if FirstMatch(Branches(s)).Some? {
      var k := Taken(Branches(s));
      var src := Source(Branch(s, k).value);
      BranchAgain(s, k);
      forall i | 0 <= i < k ensures Branch(src, i).None? {
        EarlierMisses(s, k, i);
      }
      IsTaken(Branches(src), k);
    } else {
      TextAgain(s);
    }
  }

  /** A first token read from its own source is itself. */
  ghost predicate Idempotent<T>(first: string -> T, source: T -> string) {
    forall s :: s != "" ==> first(source(first(s))) == first(s)
  }

  lemma {:induction false} StableBy<T>(text: string, first: string -> T, source: T -> string, k: nat)
    requires Advancing(first, source) && Idempotent(first, source) && k < |TokenizeBy(text, first, source)|
    ensures var t := TokenizeBy(text, first, source)[k]; TokenizeBy(source(t), first, source) == [t]
    decreases |text|
  {
    var t := first(text);
    assert "" != source(t) <= text;
    if k == 0 {
      assert first(source(t)) == t && source(t)[|source(t)|..] == "";
    } else {
      StableBy(text[|source(t)|..], first, source, k - 1);
    }
  }

  /** Tokens are stable: the source of any token of a text, tokenized on its own, is that token again. */
  lemma Stable(text: string, k: nat)
    requires k < |Tokenize(text)|
    ensures Tokenize(Source(Tokenize(text)[k])) == [Tokenize(text)[k]]
  {
    FirstTokenAdvances();
    FirstTokenIdempotent();
    StableBy(text, FirstToken, Source, k);
  }

  lemma FirstTokenIdempotent()
    ensures Idempotent(FirstToken, Source)
  {
    forall s | s != "" ensures FirstToken(Source(FirstToken(s))) == FirstToken(s) { FirstAgain(s); }
  }

  // ---- A formatted emoji in a message ----

  lemma OneTokenBy<T>(raw: string, rest: string, t: T, first: string -> T, source: T -> string)
    requires Advancing(first, source) && raw != "" && first(raw + rest) == t && source(t) == raw
    ensures TokenizeBy(raw + rest, first, source) == [t] + TokenizeBy(rest, first, source)
  {
    assert (raw + rest)[|raw|..] == rest;
  }

  /** An emoji token that is cut out at the first `>` of the text and accepted by the parser. */
  ghost predicate Leads(raw: string, rest: string, t: Token) {
    Shaped(raw, rest) && EmojiOf(raw) == Some(t) && Source(t) == raw
  }

  ghost predicate Shaped(raw: string, rest: string) {
    raw != "" && raw[0] == '<' && raw[|raw| - 1] == '>' && Bracket(raw + rest) == raw
  }

  lemma RenderedShape(animated: bool, name: string, id: string, rest: string)
    requires CustomEmoji.IsName(name) && CustomEmoji.IsId(id)
    ensures Shaped(CustomEmoji.Render(animated, name, id), rest)
  {
    CustomEmoji.RenderEnds(animated, name, id);
    NoBracketInside(animated, name, id);
    BracketOnce(CustomEmoji.Render(animated, name, id), rest);
  }

  lemma RenderedEmoji(animated: bool, name: string, id: string)
    requires CustomEmoji.IsName(name) && CustomEmoji.IsId(id)
    ensures var raw := CustomEmoji.Render(animated, name, id); EmojiOf(raw) == Some(Emoji(raw, name, id))
  {
    CustomEmoji.ParseRendered(animated, name, id);
  }

  lemma RenderedLeads(animated: bool, name: string, id: string, rest: string)
    requires CustomEmoji.IsName(name) && CustomEmoji.IsId(id)
    ensures var raw := CustomEmoji.Render(animated, name, id); Leads(raw, rest, Emoji(raw, name, id))
  {
    RenderedShape(animated, name, id, rest);
    RenderedEmoji(animated, name, id);
  }

  lemma LeadingIsFirst(raw: string, rest: string, t: Token)
    requires Leads(raw, rest, t)
    ensures FirstToken(raw + rest) == t
  {
    var s := raw + rest;
    assert s[0] == '<' && s[|raw| - 1] == '>';
    assert EmojiAt(s) == EmojiOf(raw);
    IsTaken(Branches(s), 0);
  }

  lemma LeadingIsOneToken(raw: string, rest: string, t: Token)
    requires Leads(raw, rest, t)
    ensures Tokenize(raw + rest) == [t] + Tokenize(rest)
  {
    LeadingIsFirst(raw, rest, t);
    FirstTokenAdvances();
    OneTokenBy(raw, rest, t, FirstToken, Source);
  }

  lemma FormatIsRender(name: string, emojiId: string, animated: bool)
    requires CustomEmoji.AllDigits(Trim(emojiId))
    ensures CustomEmoji.Format(name, emojiId, animated)
            == CustomEmoji.Render(animated, CustomEmoji.SafeName(name), Trim(emojiId))
    ensures CustomEmoji.IsName(CustomEmoji.SafeName(name)) && CustomEmoji.IsId(Trim(emojiId))
  {
  }

  /** A formatted emoji with a numeric id is one token of the message, whatever follows it. */
  lemma FormattedEmojiIsOneToken(name: string, emojiId: string, animated: bool, rest: string)
    requires CustomEmoji.AllDigits(Trim(emojiId))
    ensures var raw := CustomEmoji.Format(name, emojiId, animated);
            Tokenize(raw + rest) == [Emoji(raw, CustomEmoji.SafeName(name), Trim(emojiId))] + Tokenize(rest)
  {
    var raw := CustomEmoji.Format(name, emojiId, animated);
    FormatIsRender(name, emojiId, animated);
    RenderedLeads(animated, CustomEmoji.SafeName(name), Trim(emojiId), rest);
    LeadingIsOneToken(raw, rest, Emoji(raw, CustomEmoji.SafeName(name), Trim(emojiId)));
  }

  lemma NoBracketInside(animated: bool, name: string, id: string)
    requires forall i :: 0 <= i < |name| ==> CustomEmoji.IsNameChar(name[i])
    requires forall i :: 0 <= i < |id| ==> CustomEmoji.IsDigit(id[i])
    ensures var t := CustomEmoji.Render(animated, name, id); forall i :: 0 <= i < |t| - 1 ==> t[i] != '>'
  {
  }
}
