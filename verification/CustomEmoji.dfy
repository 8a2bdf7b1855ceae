/** Custom emoji tokens, client/src/lib/customEmoji.ts. */
module CustomEmoji {
  import opened Options
  import opened JsText

  datatype Parsed = Parsed(raw: string, name: string, id: string, animated: bool)

  predicate IsDigit(c: char) { '0' <= c <= '9' }

  /** `[A-Za-z0-9_]` */
  predicate IsNameChar(c: char) { 'A' <= c <= 'Z' || 'a' <= c <= 'z' || IsDigit(c) || c == '_' }

  lemma DigitIff(c: char)
    ensures IsDigit(c) <==> c in Digits
  {
    DecimalIff(c);
  }

  /** The class has the 63 characters of the pattern, one by one. */
  lemma NameCharIff(c: char)
    ensures IsNameChar(c) <==> c in Upper || c in Lower || c in Digits || c == '_'
  {
    UpperIff(c);
    LowerIff(c);
    DigitIff(c);
  }

  /** How many characters at the front of s satisfy p: what a greedy `[...]*` consumes. */
  function Run(s: string, p: char -> bool): (n: nat)
    ensures n <= |s|
    ensures forall i :: 0 <= i < n ==> p(s[i])
    ensures n < |s| ==> !p(s[n])
  {
    if s != "" && p(s[0]) then 1 + Run(s[1..], p) else 0
  }

  lemma {:induction false} RunOf(a: string, b: string, p: char -> bool)
    requires forall i :: 0 <= i < |a| ==> p(a[i])
    requires b != "" ==> !p(b[0])
    ensures Run(a + b, p) == |a|
    decreases |a|
  {
    if a == "" {
      assert a + b == b;
    } else {
      assert (a + b)[1..] == a[1..] + b;
      RunOf(a[1..], b, p);
    }
  }

  /** What `/^<(a?):([A-Za-z0-9_]{1,32}):([0-9]+)>$/` matches. */
  ghost predicate IsToken(t: string, animated: bool, name: string, id: string) {
    t == Render(animated, name, id) && IsName(name) && IsId(id)
  }

  function Render(animated: bool, name: string, id: string): string {
    (if animated then "<a:" else "<:") + name + ":" + id + ">"
  }

  /** The regular expression as a scan; no step of it can backtrack, since each class excludes what follows it. */
  function Exec(t: string): Option<Parsed> {
    var p := if "<a:" <= t then 3 else if "<:" <= t then 2 else 0;
    if p == 0 then None
    else match ExecTail(t[p..])
      case None => None
      case Some((name, id)) => Some(Parsed(t, name, id, p == 3))
  }

  /** `([A-Za-z0-9_]{1,32}):([0-9]+)>$` */
  function ExecTail(s: string): Option<(string, string)> {
    var n := Run(s, IsNameChar);
    if n == 0 || n > 32 || n >= |s| || s[n] != ':' then None
    else match ExecId(s[n + 1..])
      case None => None
      case Some(id) => Some((s[..n], id))
  }

  /** `([0-9]+)>$` */
  function ExecId(s: string): Option<string> {
    var d := Run(s, IsDigit);
    if d == 0 || d + 1 != |s| || s[d] != '>' then None else Some(s[..d])
  }

  lemma Glue(a: string, b: string, c: string)
    ensures a + (b + (":" + (c + ">"))) == a + b + ":" + c + ">"
  {
  }

  lemma CutAt(s: string, n: nat)
    requires n < |s|
    ensures s == s[..n] + ([s[n]] + s[n + 1..])
  {
  }

  predicate IsId(id: string) { 1 <= |id| && forall i :: 0 <= i < |id| ==> IsDigit(id[i]) }

  predicate IsName(name: string) { 1 <= |name| <= 32 && forall i :: 0 <= i < |name| ==> IsNameChar(name[i]) }

  lemma IdSound(s: string)
    requires ExecId(s).Some?
    ensures s == ExecId(s).value + ">" && IsId(ExecId(s).value)
  {
    var d := Run(s, IsDigit);
    assert s == s[..d] + [s[d]];
  }

  lemma IdComplete(id: string)
    requires IsId(id)
    ensures ExecId(id + ">") == Some(id)
  {
    RunOf(id, ">", IsDigit);
    assert (id + ">")[..|id|] == id;
  }

  lemma TailSound(s: string)
    requires ExecTail(s).Some?
    ensures var (name, id) := ExecTail(s).value; s == name + (":" + (id + ">")) && IsName(name) && IsId(id)
  {
    var n := Run(s, IsNameChar);
    IdSound(s[n + 1..]);
    CutAt(s, n);
  }

  lemma TailComplete(name: string, id: string)
    requires IsName(name) && IsId(id)
    ensures ExecTail(name + (":" + (id + ">"))) == Some((name, id))
  {
    var s := name + (":" + (id + ">"));
    RunOf(name, ":" + (id + ">"), IsNameChar);
    IdComplete(id);
    assert s[..|name|] == name && s[|name|] == ':' && s[|name| + 1..] == id + ">";
  }

  lemma ExecSound(t: string)
    requires Exec(t).Some?
    ensures var e := Exec(t).value; e.raw == t && IsToken(t, e.animated, e.name, e.id)
  {
    var e := Exec(t).value;
    var head := if e.animated then "<a:" else "<:";
    var rest := t[if e.animated then 3 else 2..];
    TailSound(rest);
    assert t == head + rest;
    Glue(head, e.name, e.id);
  }

  lemma ExecComplete(t: string, animated: bool, name: string, id: string)
    requires IsToken(t, animated, name, id)
    ensures Exec(t) == Some(Parsed(t, name, id, animated))
  {
    var head := if animated then "<a:" else "<:";
    var rest := name + (":" + (id + ">"));
    Glue(head, name, id);
    assert t == head + rest && t[|head|..] == rest;
    TailComplete(name, id);
    HeadDecides(t, animated, rest);
  }

  lemma HeadDecides(t: string, animated: bool, rest: string)
    requires t == (if animated then "<a:" else "<:") + rest
    ensures "<a:" <= t <==> animated
    ensures !animated ==> "<:" <= t
  {
    if !animated {
      assert t[1] == ':';
    }
  }

  /** parseCustomEmojiToken */
  function Parse(value: string): Option<Parsed> {
    Exec(Trim(value))
  }

  /** `.replace(/[^A-Za-z0-9_]/g, '_')`; a character outside the basic plane is two code units and gives two. */
  function Sanitize(s: string): (r: string)
    ensures forall i :: 0 <= i < |r| ==> IsNameChar(r[i])
    ensures |s| <= |r|
  {
    if s == "" then ""
    else (if IsNameChar(s[0]) then [s[0]] else if s[0] as int >= 0x10000 then "__" else "_") + Sanitize(s[1..])
  }

  function SafeName(name: string): (r: string)
    ensures 1 <= |r| <= 32 && forall i :: 0 <= i < |r| ==> IsNameChar(r[i])
  {
    var s := Sanitize(Trim(name));
    var full := if s == "" then "emoji" else s;
    if |full| <= 32 then full else full[..32]
  }

  predicate AllDigits(s: string) { s != "" && forall i :: 0 <= i < |s| ==> IsDigit(s[i]) }

  /** formatCustomEmojiToken */
  function Format(name: string, emojiId: string, animated: bool): string {
    if AllDigits(Trim(emojiId)) then Render(animated, SafeName(name), Trim(emojiId)) else ":" + SafeName(name) + ":"
  }

  /** Parsing what was formatted gives back the sanitized name, the id and the flag when the id is a number, and
      nothing otherwise. */
  lemma ParseFormat(name: string, emojiId: string, animated: bool)
    ensures Parse(Format(name, emojiId, animated)) ==
            if AllDigits(Trim(emojiId))
            then Some(Parsed(Format(name, emojiId, animated), SafeName(name), Trim(emojiId), animated))
            else None
  {
    if AllDigits(Trim(emojiId)) {
      ParseRendered(animated, SafeName(name), Trim(emojiId));
    } else {
      var t := ":" + SafeName(name) + ":";
      TrimSame(t);
      assert t[0] == ':';
    }
  }

  lemma RenderEnds(animated: bool, name: string, id: string)
    ensures var t := Render(animated, name, id); t[0] == '<' && t[|t| - 1] == '>'
  {
  }

  lemma ParseRendered(animated: bool, name: string, id: string)
    requires IsToken(Render(animated, name, id), animated, name, id)
    ensures Parse(Render(animated, name, id)) == Some(Parsed(Render(animated, name, id), name, id, animated))
  {
    RenderEnds(animated, name, id);
    TrimSame(Render(animated, name, id));
    ExecComplete(Render(animated, name, id), animated, name, id);
  }

  lemma RawIsWhole(t: string)
    requires t != "" && !IsSpace(t[0]) && !IsSpace(t[|t| - 1]) && Parse(t).Some?
    ensures Parse(t).value.raw == t
  {
    TrimSame(t);
  }

  /** Formatting what was parsed gives back the token. */
  lemma FormatParse(value: string)
    requires Parse(value).Some?
    ensures var e := Parse(value).value; e.raw == Trim(value) == Format(e.name, e.id, e.animated)
  {
    var e := Parse(value).value;
    ExecSound(Trim(value));
    NoSpaces(e.name);
    NoSpaces(e.id);
    SanitizeSame(e.name);
  }

  lemma NoSpaces(s: string)
    requires forall i :: 0 <= i < |s| ==> IsNameChar(s[i])
    ensures Trim(s) == s
  {
    TrimSame(s);
  }

  lemma {:induction false} SanitizeSame(s: string)
    requires forall i :: 0 <= i < |s| ==> IsNameChar(s[i])
    ensures Sanitize(s) == s
  {
    if s != "" {
      SanitizeSame(s[1..]);
      assert s == [s[0]] + s[1..];
    }
  }

  lemma {:induction false} SanitizeEach(s: string)
    requires forall i :: 0 <= i < |s| ==> s[i] as int < 0x10000
    ensures |Sanitize(s)| == |s|
    ensures forall i :: 0 <= i < |s| ==> Sanitize(s)[i] == if IsNameChar(s[i]) then s[i] else '_'
    decreases |s|
  {
    if s != "" { SanitizeEach(s[1..]); }
  }

  predicate Listed(c: char) { c in Upper || c in Lower || c in Digits || c == '_' }

  predicate Basic(s: string) { forall i :: 0 <= i < |s| ==> s[i] as int < 0x10000 }

  lemma TrimBasic(name: string)
    requires Basic(name)
    ensures Basic(Trim(name))
  {
    TrimIs(name);
    var t := Trim(name);
    var a, b :| name == a + t + b && White(a) && White(b);
    forall i | 0 <= i < |t| ensures t[i] as int < 0x10000 { assert name[|a| + i] == t[i]; }
  }

  lemma SanitizeIs(s: string)
    requires Basic(s)
    ensures |Sanitize(s)| == |s| && forall i :: 0 <= i < |s| ==> Sanitize(s)[i] == if Listed(s[i]) then s[i] else '_'
  {
    SanitizeEach(s);
    forall i | 0 <= i < |s| ensures IsNameChar(s[i]) <==> Listed(s[i]) { NameCharIff(s[i]); }
  }

  /** A name without characters outside the basic plane keeps its letters, digits and underscores, has an underscore for
      every other character, and is cut after 32; a blank one is "emoji". */
  lemma SafeNameIs(name: string)
    requires Basic(name)
    ensures var t, r := Trim(name), SafeName(name);
            if t == "" then r == "emoji"
            else && |r| == (if |t| <= 32 then |t| else 32)
                 && forall i :: 0 <= i < |r| ==> r[i] == if Listed(t[i]) then t[i] else '_'
  {
    TrimBasic(name);
    SanitizeIs(Trim(name));
  }
}
