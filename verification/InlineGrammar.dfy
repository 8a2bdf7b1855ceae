/**
 What tokenizeInline reads, in terms of the characters of the text alone: for every kind of token which text stands for
 it, which kind is tried first, and what is left as plain text.  The scans of InlineMarkdown read exactly this.
 */
module InlineGrammar {
  import opened Options
  import opened JsText
  import CustomEmoji
  import opened InlineMarkdown

  const Alphanumerics := Upper + Lower + Digits

  /** Every character of s is one of these, or none is. */
  ghost predicate Only(s: string, chars: string) { forall i :: 0 <= i < |s| ==> s[i] in chars }

  ghost predicate Free(s: string, chars: string) { forall i :: 0 <= i < |s| ==> s[i] !in chars }

  const Terminators := "\n\r\U{2028}\U{2029}"

  /** A pair of marks around one line of text, closed as early as it can be. */
  ghost predicate Doubled(s: string, mark: char, c: string) {
    && c != "" && Free(c, Terminators) && [mark, mark] + c + [mark, mark] <= s
    && forall i :: 3 <= i < 2 + |c| ==> !([mark, mark] <= s[i..])
  }

  /** A fence, a language, and the text up to the first fence after them. */
  ghost predicate Fenced(s: string, language: string, c: string) {
    && Only(language, Alphanumerics + "_+-") && "```" + language + "\n" + c + "```" <= s
    && forall i :: 0 <= i < |c| ==> !("```" <= (c + "```")[i..])
  }

  /** A mark around a text that does not hold the mark. */
  ghost predicate Single(s: string, mark: char, c: string) {
    c != "" && mark !in c && [mark] + c + [mark] <= s
  }

  predicate UrlEnds(c: char) { IsSpace(c) || c in "<>[]()" }

  /** A scheme and as many characters as can follow it. */
  ghost predicate Url(s: string, c: string) {
    && c <= s && (|c| < |s| ==> UrlEnds(s[|c|]))
    && exists scheme, rest | scheme in {"http://", "https://"} && c == scheme + rest ::
         rest != "" && forall i :: 0 <= i < |rest| ==> !UrlEnds(rest[i])
  }

  ghost predicate EmojiText(raw: string, name: string, id: string) {
    && 1 <= |name| <= 32 && Only(name, Alphanumerics + "_") && id != "" && Only(id, Digits)
    && (raw == "<:" + name + ":" + id + ">" || raw == "<a:" + name + ":" + id + ">")
  }

  /** s begins with the text of t, when t is of the k-th kind that is tried. */
  ghost predicate Reads(s: string, k: nat, t: Token) {
    match k
    case 0 => t.Emoji? && t.content <= s && EmojiText(t.content, t.name, t.id)
    case 1 => t.CodeBlock? && Fenced(s, t.language, t.content)
    case 2 => t.Code? && Single(s, '`', t.content) && '\n' !in t.content
    case 3 => t.Spoiler? && t.content != "" && '|' !in t.content && "||" + t.content + "||" <= s
    case 4 => t.Highlight? && Doubled(s, '=', t.content)
    case 5 => t.Bold? && Doubled(s, '*', t.content)
    case 6 => t.Underline? && Doubled(s, '_', t.content)
    case 7 => t.Strikethrough? && Doubled(s, '~', t.content)
    case 8 => t.Italic? && t.mark == '*' && Single(s, '*', t.content)
    case 9 => t.Italic? && t.mark == '_' && Single(s, '_', t.content)
    case 10 => t.Link? && Url(s, t.content)
    case 11 => t.Br? && "\n" <= s
    case _ => false
  }

  /** Something may begin at position i. */
  predicate Special(s: string, i: nat)
    requires i < |s|
  {
    s[i] in "*_`~|=\n<" || "http://" <= s[i..] || "https://" <= s[i..]
  }

  /** Plain text goes up to the next position at which something may begin, and is that character alone if it is the
      first. */
  ghost predicate Plain(s: string, c: string) {
    && c != "" && c <= s
    && if Special(s, 0) then |c| == 1
       else (forall i :: 0 <= i < |c| ==> !Special(s, i)) && (|c| < |s| ==> Special(s, |c|))
  }

  // ---- Every branch ----

  lemma SpoilerSound(s: string)
    requires SpoilerAt(s).Some?
    ensures Reads(s, 3, SpoilerAt(s).value)
  {
    SpoilerPrefix(s);
    SliceAll(s, 2, 2 + |SpoilerAt(s).value.content|, IsSpoilerChar);
  }

  lemma SpoilerComplete(s: string, c: string, rest: string)
    requires c != "" && '|' !in c && s == "||" + (c + ("||" + rest))
    ensures SpoilerAt(s) == Some(Spoiler(c))
  {
    assert s[2..] == c + ("||" + rest);
    assert forall i :: 0 <= i < |c| ==> IsSpoilerChar(c[i]);
    CustomEmoji.RunOf(c, "||" + rest, IsSpoilerChar);
    assert s[2 + |c|..] == "||" + rest && s[2..2 + |c|] == c;
  }

  lemma SpoilerIff(s: string, t: Token)
    ensures SpoilerAt(s) == Some(t) <==> Reads(s, 3, t)
  {
    if SpoilerAt(s) == Some(t) { SpoilerSound(s); }
    if Reads(s, 3, t) {
      var c := t.content;
      assert s == "||" + (c + ("||" + s[4 + |c|..]));
      SpoilerComplete(s, c, s[4 + |c|..]);
    }
  }

  lemma CodeIff(s: string, t: Token)
    ensures CodeAt(s) == Some(t) <==> Reads(s, 2, t)
  {
    if CodeAt(s) == Some(t) {
      CodePrefix(s);
      SliceAll(s, 1, 1 + |t.content|, IsCodeChar);
    }
    if Reads(s, 2, t) {
      var c := t.content;
      var rest := s[2 + |c|..];
      assert s[1..] == c + ("`" + rest);
      assert forall i :: 0 <= i < |c| ==> IsCodeChar(c[i]);
      CustomEmoji.RunOf(c, "`" + rest, IsCodeChar);
      assert s[1..1 + |c|] == c;
    }
  }

  lemma ItalicIff(s: string, mark: char, t: Token)
    ensures ItalicAt(s, mark) == Some(t) <==> t.Italic? && t.mark == mark && Single(s, mark, t.content)
  {
    if ItalicAt(s, mark) == Some(t) {
      ItalicPrefix(s, mark);
      SliceAll(s, 1, 1 + |t.content|, Not(mark));
    }
    if t.Italic? && t.mark == mark && Single(s, mark, t.content) {
      var c := t.content;
      var rest := s[2 + |c|..];
      assert s[1..] == c + ([mark] + rest);
      assert forall i :: 0 <= i < |c| ==> Not(mark)(c[i]);
      CustomEmoji.RunOf(c, [mark] + rest, Not(mark));
      assert s[1..1 + |c|] == c;
    }
  }

  lemma LanguageCharIff(c: char)
    ensures IsLanguageChar(c) <==> c in Alphanumerics + "_+-"
  {
    CustomEmoji.NameCharIff(c);
  }

  lemma LanguageIff(l: string)
    ensures (forall i :: 0 <= i < |l| ==> IsLanguageChar(l[i])) <==> Only(l, Alphanumerics + "_+-")
  {
    forall i | 0 <= i < |l| ensures IsLanguageChar(l[i]) <==> l[i] in Alphanumerics + "_+-" { LanguageCharIff(l[i]); }
  }

  lemma PrefixFrom(a: string, b: string, i: nat)
    requires a <= b && i <= |a|
    ensures a[i..] <= b[i..]
  {
  }

  lemma PrefixOf(a: string, b: string, sub: string)
    requires a <= b && |sub| <= |a|
    ensures sub <= a <==> sub <= b
  {
  }

  /** A fence stands in the text of the block iff it stands there with what follows. */
  lemma FencesInside(c: string, body: string)
    requires c + "```" <= body
    ensures forall i :: 0 <= i < |c| ==> ("```" <= (c + "```")[i..] <==> "```" <= body[i..])
  {
    forall i | 0 <= i < |c| ensures "```" <= (c + "```")[i..] <==> "```" <= body[i..] {
      PrefixFrom(c + "```", body, i);
      PrefixOf((c + "```")[i..], body[i..], "```");
    }
  }

  lemma BlockText(language: string, c: string, body: string)
    requires c + "```" <= body
    ensures "```" + language + "\n" + c + "```" <= "```" + (language + ("\n" + body))
  {
    var after := body[|c| + 3..];
    assert body == c + ("```" + after);
    Glue("```", language, c, after);
  }

  lemma CodeBlockSound(s: string)
    requires CodeBlockAt(s).Some?
    ensures Reads(s, 1, CodeBlockAt(s).value)
  {
    var t := CodeBlockAt(s).value;
    var rest := s[3..];
    var body := rest[|t.language| + 1..];
    assert s == "```" + rest;
    CustomEmoji.CutAt(rest, |t.language|);
    CutAround(body, |t.content|, "```");
    LanguageIff(t.language);
    BlockText(t.language, t.content, body);
    FencesInside(t.content, body);
  }

  lemma BlockBody(s: string, language: string, c: string) returns (body: string)
    requires "```" + language + "\n" + c + "```" <= s
    ensures c + "```" <= body && "```" <= s && s[3..] == language + ("\n" + body)
  {
    body := c + "```" + s[|"```" + language + "\n" + c + "```"|..];
    Glue("```", language, c, s[|"```" + language + "\n" + c + "```"|..]);
    assert s == "```" + (language + ("\n" + body));
  }

  lemma BlockFound(s: string, language: string, c: string, body: string)
    requires "```" <= s && s[3..] == language + ("\n" + body) && c + "```" <= body
    requires forall i :: 0 <= i < |language| ==> IsLanguageChar(language[i])
    requires Find(body, "```") == Some(|c|)
    ensures CodeBlockAt(s) == Some(CodeBlock(language, c))
  {
    AfterLanguage(language, body);
    assert body[..|c|] == c;
  }

  lemma CodeBlockComplete(s: string, t: Token)
    requires Reads(s, 1, t)
    ensures CodeBlockAt(s) == Some(t)
  {
    var body := BlockBody(s, t.language, t.content);
    LanguageIff(t.language);
    FencesInside(t.content, body);
    assert body[|t.content|..] == "```" + body[|t.content| + 3..];
    FindAt(body, "```", |t.content|);
    BlockFound(s, t.language, t.content, body);
  }

  /** The first position is the one at which it stands and before which it does not. */
  lemma FindAt(s: string, sub: string, n: nat)
    requires n <= |s| && sub <= s[n..] && forall i :: 0 <= i < n ==> !(sub <= s[i..])
    ensures Find(s, sub) == Some(n)
  {
  }

  lemma DoubledSound(s: string, mark: char)
    requires Pair(s, mark).Some?
    ensures Doubled(s, mark, Pair(s, mark).value)
  {
    var c := Pair(s, mark).value;
    forall i | 3 <= i < 2 + |c| ensures !([mark, mark] <= s[i..]) {
      TwoMarks(s, mark, i);
      assert !PairedTo(s, mark, i);
    }
    forall i | 0 <= i < |c| ensures c[i] !in Terminators {
      assert c[i] == s[2 + i];
    }
  }

  lemma TwoMarks(s: string, mark: char, q: nat)
    requires q + 2 <= |s|
    ensures [mark, mark] <= s[q..] <==> s[q] == mark && s[q + 1] == mark
  {
    assert s[q..][0] == s[q] && s[q..][1] == s[q + 1];
  }

  lemma DoubledComplete(s: string, mark: char, c: string)
    requires Doubled(s, mark, c)
    ensures Pair(s, mark) == Some(c)
  {
    var p := 2 + |c|;
    assert forall i :: 0 <= i < |c| ==> s[2 + i] == c[i];
    assert s[p] == mark && s[p + 1] == mark;
    forall i | 2 <= i < p ensures IsDot(s[i]) { assert s[i] == c[i - 2]; }
    assert PairedTo(s, mark, p);
    forall q | 3 <= q < p ensures !PairedTo(s, mark, q) { TwoMarks(s, mark, q); }
    var d := Pair(s, mark);
    assert d.Some? && PairedTo(s, mark, 2 + |d.value|);
    assert d.value == s[2..2 + |d.value|] && c == s[2..p];
  }

  lemma PairIff(s: string, mark: char, t: Token)
    requires mark in "=*_~"
    ensures PairAt(s, mark) == Some(t) <==>
            (if mark == '=' then t.Highlight? else if mark == '*' then t.Bold? else if mark == '_' then t.Underline?
             else t.Strikethrough?) && Doubled(s, mark, t.content)
  {
    if PairAt(s, mark).Some? { DoubledSound(s, mark); }
    if (t.Highlight? || t.Bold? || t.Underline? || t.Strikethrough?) && Doubled(s, mark, t.content) {
      DoubledComplete(s, mark, t.content);
    }
  }

  lemma SchemeOf(s: string)
    requires UrlPrefix(s) > 0
    ensures UrlPrefix(s) <= |s| && s[..UrlPrefix(s)] in {"http://", "https://"}
  {
    if "https://" <= s {
      assert s[..8] == "https://";
    } else {
      assert s[..7] == "http://";
    }
  }

  lemma LinkSound(s: string)
    requires LinkAt(s).Some?
    ensures Reads(s, 10, LinkAt(s).value)
  {
    var h := UrlPrefix(s);
    var after := s[h..];
    var n := CustomEmoji.Run(after, IsUrlChar);
    SchemeOf(s);
    assert s[..h + n] == s[..h] + after[..n];
    assert forall i :: 0 <= i < n ==> IsUrlChar(after[i]);
    if h + n < |s| { assert s[h + n] == after[n]; }
  }

  lemma UrlComplete(s: string, scheme: string, rest: string, after: string)
    requires scheme in {"http://", "https://"} && s == scheme + (rest + after) && rest != ""
    requires forall i :: 0 <= i < |rest| ==> IsUrlChar(rest[i])
    requires after != "" ==> !IsUrlChar(after[0])
    ensures LinkAt(s) == Some(Link(scheme + rest))
  {
    SchemeLength(s, scheme);
    assert s[|scheme|..] == rest + after;
    CustomEmoji.RunOf(rest, after, IsUrlChar);
    assert s[..|scheme| + |rest|] == scheme + rest;
  }

  lemma LinkComplete(s: string, t: Token)
    requires Reads(s, 10, t)
    ensures LinkAt(s) == Some(t)
  {
    var c := t.content;
    var scheme, rest :| scheme in {"http://", "https://"} && c == scheme + rest
                        && rest != "" && forall i :: 0 <= i < |rest| ==> !UrlEnds(rest[i]);
    var after := s[|c|..];
    assert s == scheme + (rest + after);
    UrlComplete(s, scheme, rest, after);
  }

  lemma SchemeLength(s: string, scheme: string)
    requires scheme in {"http://", "https://"} && scheme <= s
    ensures UrlPrefix(s) == |scheme|
  {
    if scheme == "http://" {
      var fifth := s[4];
      assert fifth == ':';
      assert "https://" <= s ==> fifth == 's';
    }
  }

  lemma LinkIff(s: string, t: Token)
    ensures LinkAt(s) == Some(t) <==> Reads(s, 10, t)
  {
    if LinkAt(s) == Some(t) { LinkSound(s); }
    if Reads(s, 10, t) { LinkComplete(s, t); }
  }

  lemma CodeBlockIff(s: string, t: Token)
    ensures CodeBlockAt(s) == Some(t) <==> Reads(s, 1, t)
  {
    if CodeBlockAt(s) == Some(t) { CodeBlockSound(s); }
    if Reads(s, 1, t) { CodeBlockComplete(s, t); }
  }

  lemma NameIff(name: string)
    ensures CustomEmoji.IsName(name) <==> 1 <= |name| <= 32 && Only(name, Alphanumerics + "_")
  {
    forall i | 0 <= i < |name| ensures CustomEmoji.IsNameChar(name[i]) <==> name[i] in Alphanumerics + "_" {
      CustomEmoji.NameCharIff(name[i]);
    }
  }

  lemma IdIff(id: string)
    ensures CustomEmoji.IsId(id) <==> id != "" && Only(id, Digits)
  {
    forall i | 0 <= i < |id| ensures CustomEmoji.IsDigit(id[i]) <==> id[i] in Digits {
      CustomEmoji.DigitIff(id[i]);
    }
  }

  lemma EmojiTextOf(raw: string)
    requires raw != "" && raw[0] == '<' && raw[|raw| - 1] == '>' && EmojiOf(raw).Some?
    ensures var t := EmojiOf(raw).value; t.Emoji? && t.content == raw && EmojiText(raw, t.name, t.id)
  {
    TrimSame(raw);
    CustomEmoji.ExecSound(raw);
    NameIff(EmojiOf(raw).value.name);
    IdIff(EmojiOf(raw).value.id);
  }

  lemma EmojiSound(s: string)
    requires EmojiAt(s).Some?
    ensures Reads(s, 0, EmojiAt(s).value)
  {
    Bracketed(s);
    EmojiTextOf(Bracket(s));
  }

  lemma LeadsIsEmoji(raw: string, rest: string, t: Token)
    requires Leads(raw, rest, t)
    ensures EmojiAt(raw + rest) == Some(t)
  {
    assert (raw + rest)[0] == '<' && (raw + rest)[|raw| - 1] == '>';
  }

  lemma EmojiComplete(raw: string, name: string, id: string, rest: string)
    requires EmojiText(raw, name, id)
    ensures EmojiAt(raw + rest) == Some(Emoji(raw, name, id))
  {
    var animated := raw == "<a:" + name + ":" + id + ">";
    NameIff(name);
    IdIff(id);
    RenderedLeads(animated, name, id, rest);
    LeadsIsEmoji(raw, rest, Emoji(raw, name, id));
  }

  lemma EmojiIff(s: string, t: Token)
    ensures EmojiAt(s) == Some(t) <==> Reads(s, 0, t)
  {
    if EmojiAt(s) == Some(t) { EmojiSound(s); }
    if Reads(s, 0, t) {
      assert s == t.content + s[|t.content|..];
      EmojiComplete(t.content, t.name, t.id, s[|t.content|..]);
    }
  }

  /** Every branch reads exactly the texts of its kind of token. */
  lemma BranchIff(s: string, k: nat, t: Token)
    requires k < 12
    ensures Branch(s, k) == Some(t) <==> Reads(s, k, t)
  {
    match k
    case 0 => EmojiIff(s, t);
    case 1 => CodeBlockIff(s, t);
    case 2 => CodeIff(s, t);
    case 3 => SpoilerIff(s, t);
    case 4 => PairIff(s, '=', t);
    case 5 => PairIff(s, '*', t);
    case 6 => PairIff(s, '_', t);
    case 7 => PairIff(s, '~', t);
    case 8 => ItalicIff(s, '*', t);
    case 9 => ItalicIff(s, '_', t);
    case 10 => LinkIff(s, t);
    case _ =>
  }

  // ---- What is tried first ----

  lemma SpecialIff(s: string, i: nat)
    requires i < |s|
    ensures SpecialAt(s[i..]) <==> Special(s, i)
  {
    assert s[i..][0] == s[i];
  }

  lemma PlainIff(s: string, t: Token)
    requires s != ""
    ensures TextAt(s) == t <==> t.Text? && Plain(s, t.content)
  {
    forall i | 0 <= i < |s| ensures SpecialAt(s[i..]) <==> Special(s, i) { SpecialIff(s, i); }
    var c := TextAt(s).content;
    assert Plain(s, c);
    if t.Text? && Plain(s, t.content) { SamePlain(s, c, t.content); }
  }

  lemma SamePlain(s: string, a: string, b: string)
    requires s != "" && Plain(s, a) && Plain(s, b)
    ensures a == b
  {
    assert |a| == |b|;
  }

  /** No kind before the k-th reads anything at the front of s. */
  ghost predicate NoneBefore(s: string, k: nat) {
    forall j: nat, u | j < k :: !Reads(s, j, u)
  }

  /** The token at the front of s: of the first kind that reads one there, and plain text when none does. */
  ghost predicate First(s: string, t: Token) {
    || (exists k: nat | k < 12 :: Reads(s, k, t) && NoneBefore(s, k))
    || (NoneBefore(s, 12) && t.Text? && Plain(s, t.content))
  }

  lemma SomeReads(s: string, k: nat)
    requires k < 12
    ensures Branch(s, k).Some? ==> exists t :: Reads(s, k, t)
  {
    if Branch(s, k).Some? { BranchIff(s, k, Branch(s, k).value); }
  }

  lemma NoneIff(s: string, k: nat)
    requires k <= 12
    ensures NoneBefore(s, k) <==> forall j :: 0 <= j < k ==> Branch(s, j).None?
  {
    forall j: nat, u | j < k ensures Branch(s, j) == Some(u) <==> Reads(s, j, u) { BranchIff(s, j, u); }
    if NoneBefore(s, k) {
      forall j | 0 <= j < k ensures Branch(s, j).None? {
        SomeReads(s, j);
      }
    }
  }

  lemma {:induction false} NoMatch(branches: seq<Option<Token>>)
    requires forall j :: 0 <= j < |branches| ==> branches[j].None?
    ensures FirstMatch(branches).None?
  {
    if branches != [] { NoMatch(branches[1..]); }
  }

  lemma FirstSound(s: string)
    requires s != ""
    ensures First(s, FirstToken(s))
  {
    if FirstMatch(Branches(s)).Some? {
      var k := Taken(Branches(s));
      BranchIff(s, k, FirstToken(s));
      NoneIff(s, k);
    } else {
      forall j | 0 <= j < 12 ensures Branch(s, j).None? { NoneOf(Branches(s), j); }
      NoneIff(s, 12);
      PlainIff(s, FirstToken(s));
    }
  }

  lemma FirstComplete(s: string, t: Token)
    requires s != "" && First(s, t)
    ensures FirstToken(s) == t
  {
    if k: nat :| k < 12 && Reads(s, k, t) && NoneBefore(s, k) {
      BranchIff(s, k, t);
      NoneIff(s, k);
      IsTaken(Branches(s), k);
    } else {
      NoneIff(s, 12);
      NoMatch(Branches(s));
      PlainIff(s, t);
    }
  }

  /** One turn of the loop pushes the token that the grammar puts first. */
  lemma FirstTokenIff(s: string, t: Token)
    requires s != ""
    ensures FirstToken(s) == t <==> First(s, t)
  {
    FirstSound(s);
    if First(s, t) { FirstComplete(s, t); }
  }

  /** The tokens read the text from front to back. */
  ghost predicate IsReading(tokens: seq<Token>, s: string)
    decreases |tokens|
  {
    if tokens == [] then s == ""
    else s != "" && First(s, tokens[0]) && Source(tokens[0]) <= s && IsReading(tokens[1..], s[|Source(tokens[0])|..])
  }

  lemma TokenizeStep(s: string)
    requires s != ""
    ensures Source(FirstToken(s)) <= s && Tokenize(s) == [FirstToken(s)] + Tokenize(s[|Source(FirstToken(s))|..])
  {
    FirstTokenAdvances();
    FirstTokenPrefix(s);
  }

  lemma {:induction false} ReadingSound(s: string)
    ensures IsReading(Tokenize(s), s)
    decreases |s|
  {
    if s == "" {
      FirstTokenAdvances();
      assert Tokenize(s) == [];
    } else {
      var t := FirstToken(s);
      FirstTokenPrefix(s);
      TokenizeStep(s);
      FirstSound(s);
      ReadingSound(s[|Source(t)|..]);
      assert Tokenize(s)[1..] == Tokenize(s[|Source(t)|..]);
    }
  }

  lemma {:induction false} ReadingOnce(tokens: seq<Token>, s: string)
    requires IsReading(tokens, s)
    ensures tokens == Tokenize(s)
    decreases |tokens|
  {
    if tokens == [] {
      FirstTokenAdvances();
      assert Tokenize(s) == [];
    } else {
      FirstComplete(s, tokens[0]);
      ReadingOnce(tokens[1..], s[|Source(tokens[0])|..]);
      TokenizeStep(s);
      assert tokens == [tokens[0]] + tokens[1..];
    }
  }

  /** The tokens of a text are the only reading of it: at each position the first kind that reads something there. */
  lemma TokenizeIff(s: string, tokens: seq<Token>)
    ensures tokens == Tokenize(s) <==> IsReading(tokens, s)
  {
    ReadingSound(s);
    if IsReading(tokens, s) { ReadingOnce(tokens, s); }
  }
}
