/** Base64 as btoa and atob do it, and the unpadded URL alphabet of section 5 of RFC 4648 on top of them:
    base64urlEncode and base64urlDecode of client/src/lib/portableLinks.ts, on bytes. */
module Base64Url {
  import opened Options
  import opened Numbers
  import JsText

  function Digit(v: int): (c: char)
    requires 0 <= v < 64
  {
    if v < 26 then 'A' + v as char
    else if v < 52 then 'a' + (v - 26) as char
    else if v < 62 then '0' + (v - 52) as char
    else if v == 62 then '+' else '/'
  }

  /** The value of a character of the alphabet, and -1 for any other. */
  function Value(c: char): (v: int)
    ensures -1 <= v < 64
  {
    if 'A' <= c <= 'Z' then c as int - 'A' as int
    else if 'a' <= c <= 'z' then c as int - 'a' as int + 26
    else if '0' <= c <= '9' then c as int - '0' as int + 52
    else if c == '+' then 62 else if c == '/' then 63 else -1
  }

  /** `btoa` */
  function Btoa(b: seq<byte>): string
    decreases |b|
  {
    if b == [] then ""
    else if |b| == 1 then [Digit(b[0] / 4), Digit(b[0] % 4 * 16), '=', '=']
    else if |b| == 2 then [Digit(b[0] / 4), Digit(b[0] % 4 * 16 + b[1] / 16), Digit(b[1] % 16 * 4), '=']
    else Quad(b[0], b[1], b[2]) + Btoa(b[3..])
  }

  function Quad(x: byte, y: byte, z: byte): string {
    [Digit(x / 4), Digit(x % 4 * 16 + y / 16), Digit(y % 16 * 4 + z / 64), Digit(z % 64)]
  }

  /** `s.replace(/a/g, b)` for single characters. */
  function Replace(s: string, a: char, b: char): (r: string)
    ensures |r| == |s| && forall i :: 0 <= i < |s| ==> r[i] == if s[i] == a then b else s[i]
  {
    seq(|s|, i requires 0 <= i < |s| => if s[i] == a then b else s[i])
  }

  /** `s.replace(/=+$/, '')` */
  function StripPadding(s: string): string {
    if s != "" && s[|s| - 1] == '=' then StripPadding(s[..|s| - 1]) else s
  }

  function Encode(b: seq<byte>): string {
    StripPadding(Replace(Replace(Btoa(b), '+', '-'), '/', '_'))
  }

  /** `while (b64.length % 4 !== 0) b64 += '=';` */
  function Pad(s: string): (r: string)
    ensures |r| % 4 == 0
    decreases (4 - |s| % 4) % 4
  {
    if |s| % 4 == 0 then s else Pad(s + "=")
  }

  predicate IsWhite(c: char) { c in " \t\n\r" || c == '\U{0C}' }

  function RemoveWhite(s: string): string {
    if s == "" then "" else (if IsWhite(s[0]) then "" else [s[0]]) + RemoveWhite(s[1..])
  }

  /** At most two padding characters count, and only when they complete a group of four. */
  function RemovePadding(s: string): string {
    if |s| % 4 != 0 || s == "" || s[|s| - 1] != '=' then s
    else if |s| >= 2 && s[|s| - 2] == '=' then s[..|s| - 2]
    else s[..|s| - 1]
  }

  predicate InAlphabet(s: string) { forall i :: 0 <= i < |s| ==> Value(s[i]) != -1 }

  /** The bytes of the digits; bits that do not fill a byte are dropped. */
  function Digits(s: string): (r: seq<byte>)
    requires InAlphabet(s)
  {
    if |s| < 2 then []
    else
      var x := 4 * Value(s[0]) + Value(s[1]) / 16;
      if |s| == 2 then [x]
      else
        var y := Value(s[1]) % 16 * 16 + Value(s[2]) / 4;
        if |s| == 3 then [x, y]
        else [x, y, Value(s[2]) % 4 * 64 + Value(s[3])] + Digits(s[4..])
  }

  /** `atob`, with None where it throws: on characters outside the alphabet and on a lone digit. */
  function Atob(s: string): Option<seq<byte>> {
    var digits := RemovePadding(RemoveWhite(s));
    if |digits| % 4 == 1 || !InAlphabet(digits) then None else Some(Digits(digits))
  }

  function Decode(s: string): Option<seq<byte>> {
    Atob(Pad(Replace(Replace(s, '-', '+'), '_', '/')))
  }

  // ---- The digits without padding ----

  function Core(b: seq<byte>): string
    decreases |b|
  {
    if b == [] then ""
    else if |b| == 1 then [Digit(b[0] / 4), Digit(b[0] % 4 * 16)]
    else if |b| == 2 then [Digit(b[0] / 4), Digit(b[0] % 4 * 16 + b[1] / 16), Digit(b[1] % 16 * 4)]
    else Quad(b[0], b[1], b[2]) + Core(b[3..])
  }

  function Padding(b: seq<byte>): string {
    if |b| % 3 == 1 then "==" else if |b| % 3 == 2 then "=" else ""
  }

  lemma ValueDigit(v: int)
    requires 0 <= v < 64
    ensures Value(Digit(v)) == v
  {
  }

  lemma {:induction false} CoreInAlphabet(b: seq<byte>)
    ensures InAlphabet(Core(b))
    decreases |b|
  {
    if |b| >= 3 { CoreInAlphabet(b[3..]); }
  }

  /** How many digits are missing from a group of four. */
  lemma CoreRemainder(b: seq<byte>)
    ensures |Core(b)| % 4 == if |b| % 3 == 0 then 0 else |b| % 3 + 1
  {
    CoreLength(b);
    Remainder(|b|, |b| / 3);
  }

  lemma Remainder(n: nat, q: nat)
    requires 3 * q <= n < 3 * q + 3
    ensures (4 * n + 2) / 3 % 4 == if n % 3 == 0 then 0 else n % 3 + 1
  {
    if n == 3 * q { assert (4 * n + 2) / 3 == 4 * q && n % 3 == 0; }
    else if n == 3 * q + 1 { assert (4 * n + 2) / 3 == 4 * q + 2 && n % 3 == 1; }
    else { assert (4 * n + 2) / 3 == 4 * q + 3 && n % 3 == 2; }
  }

  lemma SameRemainder(n: nat)
    requires n >= 3
    ensures (n - 3) % 3 == n % 3
  {
  }

  lemma {:induction false} BtoaIs(b: seq<byte>)
    ensures Btoa(b) == Core(b) + Padding(b)
    decreases |b|
  {
    if |b| >= 3 {
      BtoaIs(b[3..]);
      SameRemainder(|b|);
      assert Quad(b[0], b[1], b[2]) + (Core(b[3..]) + Padding(b)) == Core(b) + Padding(b);
    }
  }

  /** Four digits are the three bytes they were made from. */
  lemma QuadValues(x: byte, y: byte, z: byte)
    ensures var q := Quad(x, y, z);
            && Value(q[0]) == x / 4 && Value(q[1]) == x % 4 * 16 + y / 16
            && Value(q[2]) == y % 16 * 4 + z / 64 && Value(q[3]) == z % 64
  {
    ValueDigit(x / 4);
    ValueDigit(x % 4 * 16 + y / 16);
    ValueDigit(y % 16 * 4 + z / 64);
    ValueDigit(z % 64);
  }

  lemma {:induction false} DigitsCore(b: seq<byte>)
    requires InAlphabet(Core(b))
    ensures Digits(Core(b)) == b
    decreases |b|
  {
    if |b| == 1 {
      OneByte(b[0]);
    } else if |b| == 2 {
      TwoBytes(b[0], b[1]);
    } else if |b| >= 3 {
      CoreInAlphabet(b[3..]);
      DigitsCore(b[3..]);
      QuadDigits(b[0], b[1], b[2], Core(b[3..]));
      assert b == [b[0], b[1], b[2]] + b[3..];
    }
  }

  lemma OneByte(x: byte)
    ensures var s := [Digit(x / 4), Digit(x % 4 * 16)]; InAlphabet(s) && Digits(s) == [x]
  {
    ValueDigit(x / 4);
    ValueDigit(x % 4 * 16);
  }

  lemma TwoBytes(x: byte, y: byte)
    ensures var s := [Digit(x / 4), Digit(x % 4 * 16 + y / 16), Digit(y % 16 * 4)]; InAlphabet(s) && Digits(s) == [x, y]
  {
    ValueDigit(x / 4);
    ValueDigit(x % 4 * 16 + y / 16);
    ValueDigit(y % 16 * 4);
  }

  lemma BytesBack(x: nat, y: nat, z: nat)
    requires x < 256 && y < 256 && z < 256
    ensures 4 * (x / 4) + (x % 4 * 16 + y / 16) / 16 == x
    ensures (x % 4 * 16 + y / 16) % 16 * 16 + (y % 16 * 4 + z / 64) / 4 == y
    ensures (y % 16 * 4 + z / 64) % 4 * 64 + z % 64 == z
  {
  }

  lemma QuadDigits(x: byte, y: byte, z: byte, rest: string)
    requires InAlphabet(rest) && InAlphabet(Quad(x, y, z) + rest)
    ensures Digits(Quad(x, y, z) + rest) == [x, y, z] + Digits(rest)
  {
    var q := Quad(x, y, z);
    var s := q + rest;
    QuadValues(x, y, z);
    BytesBack(x, y, z);
    assert s[0] == q[0] && s[1] == q[1] && s[2] == q[2] && s[3] == q[3] && s[4..] == rest;
  }

  // ---- Encoding drops the padding, decoding restores it ----

  function ToUrl(s: string): string { Replace(Replace(s, '+', '-'), '/', '_') }

  function FromUrl(s: string): string { Replace(Replace(s, '-', '+'), '_', '/') }

  lemma UrlBack(s: string)
    requires InAlphabet(s)
    ensures FromUrl(ToUrl(s)) == s
  {
  }

  lemma {:induction false} StripOnlyPadding(s: string, padding: string)
    requires s != "" ==> s[|s| - 1] != '='
    requires forall i :: 0 <= i < |padding| ==> padding[i] == '='
    ensures StripPadding(s + padding) == s
    decreases |padding|
  {
    if padding == "" {
      assert s + padding == s;
    } else {
      assert (s + padding)[..|s + padding| - 1] == s + padding[..|padding| - 1];
      StripOnlyPadding(s, padding[..|padding| - 1]);
    }
  }

  /** The encoding is the digits alone, in the URL alphabet. */
  lemma EncodeIs(b: seq<byte>)
    ensures Encode(b) == ToUrl(Core(b))
  {
    CoreInAlphabet(b);
    BtoaIs(b);
    assert ToUrl(Core(b) + Padding(b)) == ToUrl(Core(b)) + Padding(b);
    StripOnlyPadding(ToUrl(Core(b)), Padding(b));
  }

  lemma Pads(s: string)
    requires |s| % 4 != 1
    ensures Pad(s) == s + if |s| % 4 == 2 then "==" else if |s| % 4 == 3 then "=" else ""
  {
    if |s| % 4 == 2 {
      PadOnce(s);
      PadOnce(s + "=");
      assert s + "=" + "=" == s + "==";
    } else if |s| % 4 == 3 {
      PadOnce(s);
    }
  }

  lemma PadOnce(s: string)
    requires |s| % 4 != 0
    ensures Pad(s) == Pad(s + "=")
    ensures |s| % 4 == 3 ==> Pad(s) == s + "="
  {
  }

  lemma {:induction false} NoWhite(s: string)
    requires forall i :: 0 <= i < |s| ==> !IsWhite(s[i])
    ensures RemoveWhite(s) == s
    decreases |s|
  {
    if s != "" {
      NoWhite(s[1..]);
      assert s == [s[0]] + s[1..];
    }
  }

  lemma RemovesPadding(s: string, padding: string)
    requires InAlphabet(s) && padding in {"", "=", "=="} && (|s| + |padding|) % 4 == 0
    ensures RemovePadding(s + padding) == s
  {
    var t := s + padding;
    assert t[..|s|] == s;
    if s != "" { assert Value(s[|s| - 1]) != -1; }
  }

  /** Every byte sequence survives: the padding that was stripped is restored exactly. */
  lemma RoundTrip(b: seq<byte>)
    ensures Decode(Encode(b)) == Some(b)
  {
    EncodeIs(b);
    CoreInAlphabet(b);
    UrlBack(Core(b));
    CoreRemainder(b);
    Pads(Core(b));
    NoWhite(Core(b) + Padding(b));
    RemovesPadding(Core(b), Padding(b));
    DigitsCore(b);
  }

  predicate IsUrlDigit(c: char) {
    'A' <= c <= 'Z' || 'a' <= c <= 'z' || '0' <= c <= '9' || c == '-' || c == '_'
  }

  lemma {:induction false} CoreLength(b: seq<byte>)
    ensures |Core(b)| == (4 * |b| + 2) / 3
    decreases |b|
  {
    if |b| >= 3 { CoreLength(b[3..]); }
  }

  /** Four characters for three bytes, without padding, all of the URL alphabet. */
  lemma EncodeShape(b: seq<byte>)
    ensures |Encode(b)| == (4 * |b| + 2) / 3
    ensures forall i :: 0 <= i < |Encode(b)| ==> IsUrlDigit(Encode(b)[i])
  {
    EncodeIs(b);
    CoreInAlphabet(b);
    CoreLength(b);
    forall i | 0 <= i < |Core(b)| ensures IsUrlDigit(ToUrl(Core(b))[i]) {
      assert Value(Core(b)[i]) != -1;
    }
  }

  // ---- The digits are those of RFC 4648, in its order ----

  const Alphabet := JsText.Upper + JsText.Lower + JsText.Digits + "-_"

  lemma LetterAt(v: nat)
    requires v < 26
    ensures JsText.Upper[v] == 'A' + v as char && JsText.Lower[v] == 'a' + v as char
  {
  }

  lemma DecimalAt(v: nat)
    requires v < 10
    ensures JsText.Digits[v] == '0' + v as char
  {
  }

  /** The digit of section 5 of RFC 4648. */
  lemma UrlDigit(v: nat)
    requires v < 64
    ensures ToUrl([Digit(v)]) == [Alphabet[v]]
  {
    if v < 26 { LetterAt(v); } else if v < 52 { LetterAt(v - 26); } else if v < 62 { DecimalAt(v - 52); }
  }

  /** Byte m, or zero after the end. */
  function ByteAt(b: seq<byte>, m: nat): nat { if m < |b| then b[m] else 0 }

  /** The k-th six bits of the byte stream, most significant first: four for every three bytes. */
  function SixBits(b: seq<byte>, k: nat): (r: nat)
    ensures r < 64
    decreases k
  {
    if k >= 4 then SixBits(if |b| < 3 then [] else b[3..], k - 4)
    else SixOf(0x1_0000 * ByteAt(b, 0) + 0x100 * ByteAt(b, 1) + ByteAt(b, 2), k)
  }

  function SixOf(three: nat, k: nat): (r: nat)
    requires k < 4 && three < 0x100_0000
    ensures r < 64
  {
    if k == 0 then three / 0x4_0000 else if k == 1 then three / 0x1000 % 64
    else if k == 2 then three / 64 % 64 else three % 64
  }

  lemma Div64(n: int, q: int, r: int)
    requires n == 64 * q + r && 0 <= r < 64
    ensures n / 64 == q && n % 64 == r
  {
  }

  lemma ThreeBytes(x: nat, y: nat, z: nat)
    requires x < 256 && y < 256 && z < 256
    ensures var three := 0x1_0000 * x + 0x100 * y + z;
            && three / 0x4_0000 == x / 4 && three / 0x1000 % 64 == x % 4 * 16 + y / 16
            && three / 64 % 64 == y % 16 * 4 + z / 64 && three % 64 == z % 64
  {
    var three := 0x1_0000 * x + 0x100 * y + z;
    Div64(three, 0x400 * x + 4 * y + z / 64, z % 64);
    Div64(0x400 * x + 4 * y + z / 64, 16 * x + y / 16, y % 16 * 4 + z / 64);
    Div64(16 * x + y / 16, x / 4, x % 4 * 16 + y / 16);
    assert three / 0x1000 == 16 * x + y / 16;
    assert three / 0x4_0000 == x / 4;
  }

  lemma {:induction false} CoreAt(b: seq<byte>, k: nat)
    requires k < |Core(b)|
    ensures Core(b)[k] == Digit(SixBits(b, k))
    decreases |b|
  {
    CoreLength(b);
    if k < 4 {
      ThreeBytes(ByteAt(b, 0), ByteAt(b, 1), ByteAt(b, 2));
    } else {
      CoreAt(b[3..], k - 4);
    }
  }

  /** The k-th character of an encoding is the digit of the k-th six bits. */
  lemma EncodeAt(b: seq<byte>, k: nat)
    requires k < |Encode(b)|
    ensures Encode(b)[k] == Alphabet[SixBits(b, k)]
  {
    EncodeIs(b);
    CoreAt(b, k);
    UrlDigit(SixBits(b, k));
    assert ToUrl([Core(b)[k]])[0] == ToUrl(Core(b))[k];
  }

  // ---- Any token of the alphabet ----

  predicate IsToken(s: string) { forall i :: 0 <= i < |s| ==> IsUrlDigit(s[i]) }

  lemma UrlDigitIff(c: char)
    ensures IsUrlDigit(c) <==> c in JsText.Upper || c in JsText.Lower || c in JsText.Digits || c in "-_"
  {
    JsText.UpperIff(c);
    JsText.LowerIff(c);
    JsText.DecimalIff(c);
  }

  lemma TokenDigits(s: string)
    requires IsToken(s)
    ensures InAlphabet(FromUrl(s)) && |FromUrl(s)| == |s|
  {
    forall i | 0 <= i < |s| ensures Value(FromUrl(s)[i]) != -1 { assert IsUrlDigit(s[i]); }
  }

  lemma DecodePads(s: string)
    requires IsToken(s) && |s| % 4 != 1
    ensures InAlphabet(FromUrl(s)) && Decode(s) == Some(Digits(FromUrl(s)))
  {
    var t := FromUrl(s);
    TokenDigits(s);
    Pads(t);
    var padding := if |t| % 4 == 2 then "==" else if |t| % 4 == 3 then "=" else "";
    forall i | 0 <= i < |t + padding| ensures !IsWhite((t + padding)[i]) {
      if i < |t| { assert Value(t[i]) != -1; }
    }
    NoWhite(t + padding);
    RemovesPadding(t, padding);
  }

  lemma PadThree(t: string)
    requires |t| % 4 == 1
    ensures Pad(t) == t + "==="
  {
    PadOnce(t);
    PadOnce(t + "=");
    PadOnce(t + "==");
    assert t + "=" + "=" + "=" == t + "===" && t + "=" + "=" == t + "==";
  }

  lemma ThreeRemain(t: string)
    requires |t| % 4 == 1
    ensures RemovePadding(t + "===") == t + "=" && !InAlphabet(t + "=")
  {
    var padded := t + "===";
    assert padded[..|padded| - 2] == t + "=";
    assert (t + "=")[|t|] == '=';
  }

  lemma LoneDigit(s: string)
    requires IsToken(s) && |s| % 4 == 1
    ensures Decode(s).None?
  {
    var t := FromUrl(s);
    TokenDigits(s);
    PadThree(t);
    forall i | 0 <= i < |t + "==="| ensures !IsWhite((t + "===")[i]) {
      if i < |t| { assert Value(t[i]) != -1; }
    }
    NoWhite(t + "===");
    ThreeRemain(t);
  }

  /** What is left of the k-th digit: the last one loses the bits that fill no byte. */
  function Kept(s: string, k: nat): int
    requires k < |s|
  {
    var v := Value(s[k]);
    if k < |s| - 1 || |s| % 4 == 0 then v else if |s| % 4 == 2 then v / 16 * 16 else v / 4 * 4
  }

  lemma FourDigits(a: nat, b: nat, c: nat, d: nat)
    requires a < 64 && b < 64 && c < 64 && d < 64
    ensures var x, y, z := 4 * a + b / 16, b % 16 * 16 + c / 4, c % 4 * 64 + d;
            && x / 4 == a && x % 4 * 16 + y / 16 == b && y % 16 * 4 + z / 64 == c && z % 64 == d
            && x % 4 * 16 == b / 16 * 16 && y % 16 * 4 == c / 4 * 4
  {
  }

  lemma FrontBytes(s: string)
    requires InAlphabet(s) && |s| >= 2 && |s| % 4 != 1
    ensures var b := Digits(s);
            && ByteAt(b, 0) == 4 * Value(s[0]) + Value(s[1]) / 16
            && ByteAt(b, 1) == (if |s| == 2 then 0 else Value(s[1]) % 16 * 16 + Value(s[2]) / 4)
            && ByteAt(b, 2) == (if |s| <= 3 then 0 else Value(s[2]) % 4 * 64 + Value(s[3]))
  {
  }

  /** Digits that are the bits of three bytes, the last of them perhaps in part. */
  lemma SixAre(a: nat, b: nat, c: nat, d: nat, k: nat)
    requires a < 64 && b < 64 && c < 64 && d < 64 && k < 4
    ensures var x, y, z := 4 * a + b / 16, b % 16 * 16 + c / 4, c % 4 * 64 + d;
            SixOf(0x1_0000 * x + 0x100 * y + z, k)
            == if k == 0 then a else if k == 1 then b else if k == 2 then c else d
  {
    ThreeBytes(4 * a + b / 16, b % 16 * 16 + c / 4, c % 4 * 64 + d);
    FourDigits(a, b, c, d);
  }

  lemma FrontAt(s: string, k: nat)
    requires InAlphabet(s) && |s| % 4 != 1 && k < |s| && k < 4
    ensures SixBits(Digits(s), k) == Kept(s, k)
  {
    var a, b := Value(s[0]), Value(s[1]);
    FrontBytes(s);
    if |s| == 2 {
      SixAre(a, b / 16 * 16, 0, 0, k);
    } else if |s| == 3 {
      SixAre(a, b, Value(s[2]) / 4 * 4, 0, k);
    } else {
      SixAre(a, b, Value(s[2]), Value(s[3]), k);
    }
  }

  lemma {:induction false} DigitsLength(s: string)
    requires InAlphabet(s) && |s| % 4 != 1
    ensures |Digits(s)| == 3 * |s| / 4
    decreases |s|
  {
    if |s| >= 4 { DigitsLength(s[4..]); }
  }

  lemma LaterDigits(s: string)
    requires InAlphabet(s) && |s| >= 4
    ensures |Digits(s)| >= 3 && Digits(s)[3..] == Digits(s[4..])
  {
  }

  lemma LaterKept(s: string, k: nat)
    requires |s| >= 4 && 4 <= k < |s|
    ensures Kept(s, k) == Kept(s[4..], k - 4)
  {
    assert s[4..][k - 4] == s[k];
    assert (|s| - 4) % 4 == |s| % 4;
  }

  lemma {:induction false} DigitsAt(s: string, k: nat)
    requires InAlphabet(s) && |s| % 4 != 1 && k < |s|
    ensures SixBits(Digits(s), k) == Kept(s, k)
    decreases |s|
  {
    if k < 4 {
      FrontAt(s, k);
    } else {
      LaterDigits(s);
      LaterKept(s, k);
      DigitsAt(s[4..], k - 4);
    }
  }

  /** A token of the alphabet decodes iff it does not end in a lone digit, and its bytes are the bits of its digits;
      bits of the last digit that fill no byte are dropped. */
  lemma DecodeIff(s: string)
    requires IsToken(s)
    ensures Decode(s).Some? <==> |s| % 4 != 1
    ensures Decode(s).Some? ==>
              && |Decode(s).value| == 3 * |s| / 4
              && forall k :: 0 <= k < |s| ==> SixBits(Decode(s).value, k) == Kept(FromUrl(s), k)
  {
    if |s| % 4 == 1 {
      LoneDigit(s);
    } else {
      DecodePads(s);
      TokenDigits(s);
      DigitsLength(FromUrl(s));
      forall k | 0 <= k < |s| ensures SixBits(Digits(FromUrl(s)), k) == Kept(FromUrl(s), k) {
        DigitsAt(FromUrl(s), k);
      }
    }
  }
}
