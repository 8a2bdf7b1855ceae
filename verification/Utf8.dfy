/** UTF-8 as TextEncoder writes it and TextDecoder reads it (Encoding Standard, sections 8.1.1 and 8.1.2).  A char is
    a Unicode scalar value. */
module Utf8 {

  import opened Numbers

  const Replacement: char := '\U{FFFD}'
  const ByteOrderMark: char := '\U{FEFF}'

  function EncodeChar(c: char): (r: seq<byte>)
    ensures 1 <= |r| <= 4
  {
    var v := c as int;
    if v < 0x80 then [v]
    else if v < 0x800 then [0xC0 + v / 64, 0x80 + v % 64]
    else if v < 0x1_0000 then [0xE0 + v / 64 / 64, 0x80 + v / 64 % 64, 0x80 + v % 64]
    else [0xF0 + v / 64 / 64 / 64, 0x80 + v / 64 / 64 % 64, 0x80 + v / 64 % 64, 0x80 + v % 64]
  }

  /** `new TextEncoder().encode(s)` */
  function Encode(s: string): seq<byte> {
    if s == "" then [] else EncodeChar(s[0]) + Encode(s[1..])
  }

  predicate Within(b: seq<byte>, k: nat, lower: int, upper: int) { k < |b| && lower <= b[k] <= upper }

  predicate Continues(b: seq<byte>, k: nat) { Within(b, k, 0x80, 0xBF) }

  /** The lower and upper bound of the byte after a lead byte. */
  function Second(lead: int): (int, int) {
    (if lead == 0xE0 then 0xA0 else if lead == 0xF0 then 0x90 else 0x80,
     if lead == 0xED then 0x9F else if lead == 0xF4 then 0x8F else 0xBF)
  }

  /** Six more bits. */
  function More(high: int, continuation: byte): int { 64 * high + continuation - 0x80 }

  /** The next character and how many bytes it takes; a byte that does not continue is left for the next one. */
  function DecodeChar(b: seq<byte>): (r: (char, nat))
    requires b != []
    ensures 1 <= r.1 <= |b|
  {
    var lead: int := b[0];
    var (lower, upper) := Second(lead);
    if lead < 0x80 then (lead as char, 1)
    else if 0xC2 <= lead <= 0xDF then
      if !Continues(b, 1) then (Replacement, 1)
      else (More(lead - 0xC0, b[1]) as char, 2)
    else if 0xE0 <= lead <= 0xEF then
      if !Within(b, 1, lower, upper) then (Replacement, 1)
      else if !Continues(b, 2) then (Replacement, 2)
      else (More(More(lead - 0xE0, b[1]), b[2]) as char, 3)
    else if 0xF0 <= lead <= 0xF4 then
      if !Within(b, 1, lower, upper) then (Replacement, 1)
      else if !Continues(b, 2) then (Replacement, 2)
      else if !Continues(b, 3) then (Replacement, 3)
      else (More(More(More(lead - 0xF0, b[1]), b[2]), b[3]) as char, 4)
    else (Replacement, 1)
  }

  function DecodeAll(b: seq<byte>): string
    decreases |b|
  {
    if b == [] then "" else [DecodeChar(b).0] + DecodeAll(b[DecodeChar(b).1..])
  }

  const Mark: seq<byte> := [0xEF, 0xBB, 0xBF]

  /** `new TextDecoder().decode(b)`: one byte order mark at the front is dropped. */
  function Decode(b: seq<byte>): string {
    if Mark <= b then DecodeAll(b[3..]) else DecodeAll(b)
  }

  lemma DecodeTwo(c: char, rest: seq<byte>)
    requires 0x80 <= c as int < 0x800
    ensures DecodeChar(EncodeChar(c) + rest) == (c, 2)
  {
    var b := EncodeChar(c) + rest;
    assert b[0] == EncodeChar(c)[0] && b[1] == EncodeChar(c)[1];
  }

  lemma DecodeThree(c: char, rest: seq<byte>)
    requires 0x800 <= c as int < 0x1_0000
    ensures DecodeChar(EncodeChar(c) + rest) == (c, 3)
  {
    var b, v := EncodeChar(c) + rest, c as int;
    assert b[0] == EncodeChar(c)[0] && b[1] == EncodeChar(c)[1] && b[2] == EncodeChar(c)[2];
    assert 64 * (v / 64 / 64) + v / 64 % 64 == v / 64;
    assert 64 * (v / 64) + v % 64 == v;
  }

  lemma DecodeFour(c: char, rest: seq<byte>)
    requires 0x1_0000 <= c as int
    ensures DecodeChar(EncodeChar(c) + rest) == (c, 4)
  {
    var b, v := EncodeChar(c) + rest, c as int;
    assert b[0] == EncodeChar(c)[0] && b[1] == EncodeChar(c)[1] && b[2] == EncodeChar(c)[2] && b[3] == EncodeChar(c)[3];
    assert 64 * (v / 64 / 64 / 64) + v / 64 / 64 % 64 == v / 64 / 64;
    assert 64 * (v / 64 / 64) + v / 64 % 64 == v / 64;
    assert 64 * (v / 64) + v % 64 == v;
  }

  /** The bytes of a character, whatever follows them, are read as that character. */
  lemma DecodeEncodeChar(c: char, rest: seq<byte>)
    ensures DecodeChar(EncodeChar(c) + rest) == (c, |EncodeChar(c)|)
  {
    var v := c as int;
    if v < 0x80 { assert (EncodeChar(c) + rest)[0] == v; }
    else if v < 0x800 { DecodeTwo(c, rest); }
    else if v < 0x1_0000 { DecodeThree(c, rest); }
    else { DecodeFour(c, rest); }
  }

  lemma {:induction false} DecodeAllEncode(s: string)
    ensures DecodeAll(Encode(s)) == s
    decreases |s|
  {
    if s != "" {
      var rest := Encode(s[1..]);
      DecodeEncodeChar(s[0], rest);
      DecodeAllEncode(s[1..]);
      assert Encode(s)[|EncodeChar(s[0])|..] == rest;
      assert s == [s[0]] + s[1..];
    }
  }

  lemma MarkIsEncoded()
    ensures EncodeChar(ByteOrderMark) == Mark
  {
  }

  /** The bytes start with the mark iff the text starts with it. */
  lemma StartsWithMark(s: string)
    ensures Mark <= Encode(s) <==> s != "" && s[0] == ByteOrderMark
  {
    MarkIsEncoded();
    if Mark <= Encode(s) {
      var b := Encode(s);
      DecodeEncodeChar(s[0], Encode(s[1..]));
      DecodeEncodeChar(ByteOrderMark, b[3..]);
      assert b == Mark + b[3..];
    }
  }

  /** Decoding what was encoded gives the text back without a leading byte order mark. */
  lemma DecodeEncode(s: string)
    ensures Decode(Encode(s)) == if s != "" && s[0] == ByteOrderMark then s[1..] else s
  {
    StartsWithMark(s);
    MarkIsEncoded();
    DecodeAllEncode(s);
    if s != "" && s[0] == ByteOrderMark {
      assert Encode(s)[3..] == Encode(s[1..]);
      DecodeAllEncode(s[1..]);
    }
  }

  // ---- What the bytes of a character are ----

  /** What a byte holds beside its marker. */
  function Part(x: int, marker: int): int { x - marker }

  /** The number that a lead byte and its continuations make, six bits each. */
  function Scalar(b: seq<byte>): int
    requires 1 <= |b| <= 4
  {
    if |b| == 1 then b[0]
    else if |b| == 2 then 0x40 * Part(b[0], 0xC0) + Part(b[1], 0x80)
    else if |b| == 3 then 0x1000 * Part(b[0], 0xE0) + 0x40 * Part(b[1], 0x80) + Part(b[2], 0x80)
    else 0x4_0000 * Part(b[0], 0xF0) + 0x1000 * Part(b[1], 0x80) + 0x40 * Part(b[2], 0x80) + Part(b[3], 0x80)
  }

  /** The smallest number that takes n bytes. */
  function Least(n: nat): int
    requires 1 <= n <= 5
  {
    if n == 1 then 0 else if n == 2 then 0x80 else if n == 3 then 0x800 else if n == 4 then 0x1_0000 else 0x11_0000
  }

  /** A lead byte of n bytes and continuations. */
  predicate Formed(b: seq<byte>) {
    && 1 <= |b| <= 4
    && (if |b| == 1 then b[0] < 0x80 else if |b| == 2 then 0xC0 <= b[0] < 0xE0
        else if |b| == 3 then 0xE0 <= b[0] < 0xF0 else 0xF0 <= b[0] < 0xF8)
    && forall i :: 1 <= i < |b| ==> 0x80 <= b[i] < 0xC0
  }

  /** A character's bytes are the one well-formed sequence of the shortest length that makes its code point. */
  lemma EncodeIff(c: char, b: seq<byte>)
    ensures EncodeChar(c) == b <==> Formed(b) && Scalar(b) == c as int && Least(|b|) <= c as int < Least(|b| + 1)
  {
    EncodeForms(c);
    if Formed(b) && Scalar(b) == c as int && Least(|b|) <= c as int < Least(|b| + 1) { OneForm(EncodeChar(c), b); }
  }

  lemma EncodeForms(c: char)
    ensures var b := EncodeChar(c);
            Formed(b) && Scalar(b) == c as int && Least(|b|) <= c as int < Least(|b| + 1)
  {
  }

  lemma SixMore(a: int, x: int, b: int, y: int)
    requires 0x40 * a + x == 0x40 * b + y && 0 <= x < 0x40 && 0 <= y < 0x40
    ensures a == b && x == y
  {
  }

  lemma OneForm(a: seq<byte>, b: seq<byte>)
    requires Formed(a) && Formed(b) && |a| == |b| && Scalar(a) == Scalar(b)
    ensures a == b
  {
    var n := |a|;
    if n == 2 {
      SixMore(Part(a[0], 0xC0), Part(a[1], 0x80), Part(b[0], 0xC0), Part(b[1], 0x80));
    } else if n == 3 {
      var x, y := 0x40 * Part(a[0], 0xE0) + Part(a[1], 0x80), 0x40 * Part(b[0], 0xE0) + Part(b[1], 0x80);
      SixMore(x, Part(a[2], 0x80), y, Part(b[2], 0x80));
      SixMore(Part(a[0], 0xE0), Part(a[1], 0x80), Part(b[0], 0xE0), Part(b[1], 0x80));
    } else if n == 4 {
      var p, q := 0x40 * Part(a[0], 0xF0) + Part(a[1], 0x80), 0x40 * Part(b[0], 0xF0) + Part(b[1], 0x80);
      SixMore(0x40 * p + Part(a[2], 0x80), Part(a[3], 0x80), 0x40 * q + Part(b[2], 0x80), Part(b[3], 0x80));
      SixMore(p, Part(a[2], 0x80), q, Part(b[2], 0x80));
      SixMore(Part(a[0], 0xF0), Part(a[1], 0x80), Part(b[0], 0xF0), Part(b[1], 0x80));
    }
  }

  // ---- Bytes that are no character ----

  /** The bytes begin the encoding of some character. */
  ghost predicate Begins(b: seq<byte>) { exists c :: b <= EncodeChar(c) }

  ghost predicate StartsCharacter(b: seq<byte>) { exists c :: EncodeChar(c) <= b }

  lemma LeadIs(c: char)
    ensures var b := EncodeChar(c);
            var (lower, upper) := Second(b[0]);
            && (|b| == 1 <==> b[0] < 0x80) && (|b| == 2 <==> 0xC2 <= b[0] <= 0xDF)
            && (|b| == 3 <==> 0xE0 <= b[0] <= 0xEF) && (|b| == 4 <==> 0xF0 <= b[0] <= 0xF4)
            && (|b| > 1 ==> lower <= b[1] <= upper)
            && forall k :: 1 <= k < |b| ==> 0x80 <= b[k] <= 0xBF
  {
  }

  lemma BeginsThree(lead: byte, second: byte)
    requires 0xE0 <= lead <= 0xEF && Second(lead).0 <= second <= Second(lead).1
    ensures Begins([lead, second])
  {
    var v := 0x1000 * (lead - 0xE0) + 0x40 * (second - 0x80);
    assert EncodeChar(v as char)[..2] == [lead, second];
  }

  lemma BeginsFour(lead: byte, second: byte, third: byte)
    requires 0xF0 <= lead <= 0xF4 && Second(lead).0 <= second <= Second(lead).1 && 0x80 <= third <= 0xBF
    ensures Begins([lead, second, third])
  {
    var v := 0x4_0000 * (lead - 0xF0) + 0x1000 * (second - 0x80) + 0x40 * (third - 0x80);
    assert EncodeChar(v as char)[..3] == [lead, second, third];
  }

  /** The longest beginning of a character at the front of b, or one byte. */
  ghost predicate LongestBeginning(b: seq<byte>, n: nat) {
    && 1 <= n <= |b| && (n == 1 || Begins(b[..n])) && (n < |b| ==> !Begins(b[..n + 1]))
  }

  lemma BegunMeans(b: seq<byte>, n: nat)
    requires 1 <= n < |b| && b[0] >= 0x80 && Begins(b[..n + 1])
    ensures 0xC2 <= b[0] <= 0xF4 && Second(b[0]).0 <= b[1] <= Second(b[0]).1 && 0x80 <= b[n] <= 0xBF
  {
    var c :| b[..n + 1] <= EncodeChar(c);
    var e := EncodeChar(c);
    LeadIs(c);
    assert e[0] == b[0] && e[1] == b[1] && e[n] == b[n];
  }

  lemma NotBegun(b: seq<byte>, n: nat)
    requires 1 <= n < |b| && b[0] >= 0x80
    requires || !(0xC2 <= b[0] <= 0xF4)
             || (n == 1 && !(Second(b[0]).0 <= b[1] <= Second(b[0]).1))
             || (n >= 2 && !(0x80 <= b[n] <= 0xBF))
    ensures !Begins(b[..n + 1])
  {
    if Begins(b[..n + 1]) { BegunMeans(b, n); }
  }

  lemma ValidOne(b: seq<byte>)
    requires b != [] && b[0] < 0x80
    ensures EncodeChar(DecodeChar(b).0) <= b
  {
  }

  lemma ValidTwo(b: seq<byte>)
    requires b != [] && 0xC2 <= b[0] <= 0xDF && Continues(b, 1)
    ensures EncodeChar(DecodeChar(b).0) <= b
  {
  }

  lemma ValidThree(b: seq<byte>)
    requires b != [] && 0xE0 <= b[0] <= 0xEF && Within(b, 1, Second(b[0]).0, Second(b[0]).1) && Continues(b, 2)
    ensures EncodeChar(DecodeChar(b).0) <= b
  {
    EncodeIff(DecodeChar(b).0, b[..3]);
  }

  lemma ValidFour(b: seq<byte>)
    requires b != [] && 0xF0 <= b[0] <= 0xF4 && Within(b, 1, Second(b[0]).0, Second(b[0]).1)
    requires Continues(b, 2) && Continues(b, 3)
    ensures EncodeChar(DecodeChar(b).0) <= b
  {
    EncodeIff(DecodeChar(b).0, b[..4]);
  }

  lemma LeadsOn(b: seq<byte>)
    requires 2 <= |b| && 0xF0 <= b[0] <= 0xF4 && Second(b[0]).0 <= b[1] <= Second(b[0]).1
    ensures Begins([b[0], b[1]])
  {
    BeginsFour(b[0], b[1], 0x80);
    var c :| [b[0], b[1], 0x80] <= EncodeChar(c);
    assert [b[0], b[1]] <= EncodeChar(c);
  }

  lemma MalformedThree(b: seq<byte>)
    requires b != [] && 0xE0 <= b[0] <= 0xEF
    requires !(Within(b, 1, Second(b[0]).0, Second(b[0]).1) && Continues(b, 2))
    ensures DecodeChar(b).0 == Replacement && LongestBeginning(b, DecodeChar(b).1)
  {
    if Within(b, 1, Second(b[0]).0, Second(b[0]).1) {
      BeginsThree(b[0], b[1]);
      assert b[..2] == [b[0], b[1]];
      if 2 < |b| { NotBegun(b, 2); }
    } else if 1 < |b| {
      NotBegun(b, 1);
    }
  }

  lemma MalformedFour(b: seq<byte>)
    requires b != [] && 0xF0 <= b[0] <= 0xF4
    requires !(Within(b, 1, Second(b[0]).0, Second(b[0]).1) && Continues(b, 2) && Continues(b, 3))
    ensures DecodeChar(b).0 == Replacement && LongestBeginning(b, DecodeChar(b).1)
  {
    if !Within(b, 1, Second(b[0]).0, Second(b[0]).1) {
      if 1 < |b| { NotBegun(b, 1); }
    } else if !Continues(b, 2) {
      LeadsOn(b);
      assert b[..2] == [b[0], b[1]];
      if 2 < |b| { NotBegun(b, 2); }
    } else {
      BeginsFour(b[0], b[1], b[2]);
      assert b[..3] == [b[0], b[1], b[2]];
      if 3 < |b| { NotBegun(b, 3); }
    }
  }

  lemma Malformed(b: seq<byte>)
    requires b != [] && !StartsCharacter(b)
    ensures DecodeChar(b).0 == Replacement && LongestBeginning(b, DecodeChar(b).1)
  {
    if b[0] < 0x80 {
      ValidOne(b);
    } else if 0xC2 <= b[0] <= 0xDF {
      if Continues(b, 1) { ValidTwo(b); } else if 1 < |b| { NotBegun(b, 1); }
    } else if 0xE0 <= b[0] <= 0xEF {
      if Within(b, 1, Second(b[0]).0, Second(b[0]).1) && Continues(b, 2) { ValidThree(b); } else { MalformedThree(b); }
    } else if 0xF0 <= b[0] <= 0xF4 {
      if Within(b, 1, Second(b[0]).0, Second(b[0]).1) && Continues(b, 2) && Continues(b, 3) {
        ValidFour(b);
      } else {
        MalformedFour(b);
      }
    } else if 1 < |b| {
      NotBegun(b, 1);
    }
  }

  /** Reading goes by characters, and where there is none it takes the longest beginning of one, or one byte, for a
      replacement character. */
  lemma DecodeCharIs(b: seq<byte>)
    requires b != []
    ensures forall c :: EncodeChar(c) <= b ==> DecodeChar(b) == (c, |EncodeChar(c)|)
    ensures !StartsCharacter(b) ==> DecodeChar(b).0 == Replacement && LongestBeginning(b, DecodeChar(b).1)
  {
    forall c | EncodeChar(c) <= b ensures DecodeChar(b) == (c, |EncodeChar(c)|) {
      DecodeEncodeChar(c, b[|EncodeChar(c)|..]);
      assert b == EncodeChar(c) + b[|EncodeChar(c)|..];
    }
    if !StartsCharacter(b) { Malformed(b); }
  }
}
