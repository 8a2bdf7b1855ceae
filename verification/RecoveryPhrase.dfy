/**
 The recovery phrase of client/src/lib/account.ts: 32 key bytes and a checksum byte cut into 24 words of 11
 bits, as in BIP-39, section "Generating the mnemonic".
 */
module RecoveryPhrase {
  import opened Options
  import opened Numbers
  import opened JsBits
  import opened JsText

  // ---- One window of 11 bits ----

  lemma MaskFits(x: nat, n: nat)
    requires n == 8 || n == 11
    ensures Fits(Mask(x, n), n) && Mask(x, n) < if n == 8 then 256 else 2048
  {
    LowFits(x, n);
    FitsIffBelow(Mask(x, n), n);
    Widths();
  }

  function ByteIndex(i: nat): nat { i * 11 / 8 }

  function BitIndex(i: nat): nat { i * 11 % 8 }

  /** Lines 267-276: the index of word i. */
  function WordIndex(bytes: seq<byte>, i: nat): (r: nat)
    requires |bytes| == 33 && i < 24
    ensures Fits(r, 11) && r < 2048
  {
    var k := ByteIndex(i);
    MaskFits(Shr(Or(Shl(bytes[k], 8), if k + 1 < |bytes| then bytes[k + 1] else 0), 16 - 11 - BitIndex(i)), 11);
    Mask(Shr(Or(Shl(bytes[k], 8), if k + 1 < |bytes| then bytes[k + 1] else 0), 16 - 11 - BitIndex(i)), 11)
  }

  /** Lines 311-324: what iteration i ORs into byte m. */
  function Contribution(i: nat, val: nat, m: nat): (r: nat)
    requires i < 24
    ensures Fits(r, 8)
  {
    ZeroFits(8);
    MaskFits(Shr(val, 11 - (8 - BitIndex(i))), 8);
    MaskFits(Shl(val, 8 - (11 - (8 - BitIndex(i)))), 8);
    MaskFits(Shl(val, 16 - (11 - (8 - BitIndex(i)))), 8);
    var k := ByteIndex(i);
    var remaining := 11 - (8 - BitIndex(i));
    if m == k then Mask(Shr(val, 11 - (8 - BitIndex(i))), 8)
    else if m == k + 1 && remaining > 0 then Mask(Shl(val, 8 - remaining), 8)
    else if m == k + 2 && remaining > 8 then Mask(Shl(val, 16 - remaining), 8)
    else 0
  }

  /** Byte m after the first n iterations. */
  function DecodedByte(indices: seq<nat>, n: nat, m: nat): (r: byte)
    requires n <= |indices| <= 24
    ensures Fits(r, 8)
  {
    if n == 0 then
      ZeroFits(8);
      0
    else
      OrFits(DecodedByte(indices, n - 1, m), Contribution(n - 1, indices[n - 1], m), 8);
      FitsIffBelow(Or(DecodedByte(indices, n - 1, m), Contribution(n - 1, indices[n - 1], m)), 8);
      Widths();
      Or(DecodedByte(indices, n - 1, m), Contribution(n - 1, indices[n - 1], m))
  }

  /** Bit g of the 264-bit stream, most significant first. */
  predicate StreamBit(bytes: seq<byte>, g: nat)
    requires g / 8 < |bytes|
  {
    Bit(bytes[g / 8], 7 - g % 8)
  }

  /** The window starts at bit 6 or 7 of a byte and so touches three bytes. */
  predicate Spans3(i: nat) { BitIndex(i) >= 6 }

  lemma SpansExactly(i: nat)
    requires i < 24
    ensures Spans3(i) <==> i in {2, 5, 10, 13, 18, 21}
  {
  }

  lemma ByteFits(x: byte)
    ensures Fits(x, 8)
  {
    FitsIffBelow(x, 8);
    Widths();
  }

  lemma TwoBytesBit(hi: byte, lo: byte, p: nat)
    ensures Bit(Or(Shl(hi, 8), lo), p) == if p < 8 then Bit(lo, p) else p < 16 && Bit(hi, p - 8)
  {
    OrBit(Shl(hi, 8), lo, p);
    LowBit(Double(hi, 8), 32, p);
    DoubleBit(hi, 8, p);
    ByteFits(hi);
    ByteFits(lo);
    if p >= 8 { FitsBit(lo, 8, p); }
    if p >= 16 { FitsBit(hi, 8, p - 8); }
  }

  lemma WindowBit(hi: byte, lo: byte, b: int, t: nat)
    requires 0 <= b < 8 && t < 11
    ensures Bit(Mask(Shr(Or(Shl(hi, 8), lo), 16 - 11 - b), 11), 10 - t)
         == (b <= 5 && if t + b < 8 then Bit(hi, 7 - b - t) else Bit(lo, 15 - b - t))
  {
    ShiftedBit(Or(Shl(hi, 8), lo), 5 - b, 10 - t);
    TwoBytesBit(hi, lo, 10 - t + if b <= 5 then 5 - b else 37 - b);
  }

  /** A bit of a masked word after a shift whose count may be negative. */
  lemma ShiftedBit(x: nat, count: int, p: nat)
    requires -32 <= count < 32 && p < 11
    ensures Bit(Mask(Shr(x, count), 11), p) == Bit(x, p + if count >= 0 then count else 32 + count)
  {
    LowBit(Shr(x, count), 11, p);
    HalveBit(x, count % 32, p);
  }

  /** A two-byte window reads bits 11i..11i+10 of the stream; a three-byte window reads zero, because its
      shift count is negative. */
  lemma WordBits(bytes: seq<byte>, i: nat, t: nat)
    requires |bytes| == 33 && i < 24 && t < 11
    ensures Bit(WordIndex(bytes, i), 10 - t) == (!Spans3(i) && StreamBit(bytes, 11 * i + t))
  {
    var k: int, b: int := ByteIndex(i), BitIndex(i);
    Place(k, b + t, 11 * i + t);
    WindowBit(bytes[k], if k + 1 < |bytes| then bytes[k + 1] else 0, b, t);
  }

  /** A position counted from the start of byte k. */
  lemma Place(k: int, d: int, g: int)
    requires 0 <= d < 24 && g == 8 * k + d
    ensures d < 8 ==> g / 8 == k && g % 8 == d
    ensures 8 <= d < 16 ==> g / 8 == k + 1 && g % 8 == d - 8
    ensures 16 <= d ==> g / 8 == k + 2 && g % 8 == d - 16
  {
  }

  /** An iteration puts bit 10 - (g - 11i) of its value at position g of its window, except in the middle byte
      of a three-byte window, where it puts nothing. */
  predicate Writes(i: nat, g: nat) {
    11 * i <= g < 11 * i + 11 && !(Spans3(i) && g / 8 == ByteIndex(i) + 1)
  }

  /** Bit 7 - u of what the three assignments of lines 317-322 produce, b being the bit index. */
  lemma FirstByteBit(val: nat, b: int, u: nat)
    requires 0 <= b < 8 && u < 8 && Fits(val, 11)
    ensures Bit(Mask(Shr(val, 11 - (8 - b)), 8), 7 - u) == (b <= u && Bit(val, 10 - (u - b)))
  {
    LowBit(Shr(val, 3 + b), 8, 7 - u);
    HalveBit(val, 3 + b, 7 - u);
    if u < b { FitsBit(val, 11, 10 + b - u); }
  }

  lemma SecondByteBit(val: nat, b: int, u: nat)
    requires 0 <= b < 8 && u < 8
    ensures Bit(Mask(Shl(val, 8 - (11 - (8 - b))), 8), 7 - u) == (b <= 5 && u < 3 + b && Bit(val, 2 - u + b))
  {
    var n: nat := (5 - b) % 32;
    assert n == if b <= 5 then 5 - b else 37 - b;
    LowBit(Shl(val, 5 - b), 8, 7 - u);
    LowBit(Double(val, n), 32, 7 - u);
    DoubleBit(val, n, 7 - u);
  }

  lemma ThirdByteBit(val: nat, b: int, u: nat)
    requires 6 <= b < 8 && u < 8
    ensures Bit(Mask(Shl(val, 16 - (11 - (8 - b))), 8), 7 - u) == (u <= b - 6 && Bit(val, b - 6 - u))
  {
    var n: nat := (13 - b) % 32;
    assert n == 13 - b;
    LowBit(Shl(val, 13 - b), 8, 7 - u);
    LowBit(Double(val, n), 32, 7 - u);
    DoubleBit(val, n, 7 - u);
  }

  lemma ContributionBit(i: nat, val: nat, g: nat)
    requires i < 24 && Fits(val, 11) && g < 264
    ensures Bit(Contribution(i, val, g / 8), 7 - g % 8) == (Writes(i, g) && Bit(val, 10 - (g - 11 * i)))
  {
    var m: int, u: int, k: int, b: int := g / 8, g % 8, ByteIndex(i), BitIndex(i);
    assert 11 * i == 8 * k + b && g == 8 * m + u;
    if m == k {
      FirstByteBit(val, b, u);
    } else if m == k + 1 {
      SecondByteBit(val, b, u);
    } else if m == k + 2 && b >= 6 {
      ThirdByteBit(val, b, u);
    } else {
      ZeroBit(7 - u);
    }
  }

  lemma {:induction false} DecodedBit(indices: seq<nat>, n: nat, g: nat)
    requires n <= |indices| <= 24 && g < 264
    requires forall i :: 0 <= i < |indices| ==> Fits(indices[i], 11)
    ensures Bit(DecodedByte(indices, n, g / 8), 7 - g % 8)
         == (g / 11 < n && Writes(g / 11, g) && Bit(indices[g / 11], 10 - g % 11))
  {
    if n == 0 {
      ZeroBit(7 - g % 8);
    } else {
      DecodedBit(indices, n - 1, g);
      OrBit(DecodedByte(indices, n - 1, g / 8), Contribution(n - 1, indices[n - 1], g / 8), 7 - g % 8);
      ContributionBit(n - 1, indices[n - 1], g);
    }
  }

  // ---- All 24 windows ----

  function Encode(bytes: seq<byte>): (r: seq<nat>)
    requires |bytes| == 33
    ensures |r| == 24 && forall i :: 0 <= i < 24 ==> Fits(r[i], 11) && r[i] < 2048
  {
    seq(24, i requires 0 <= i < 24 => WordIndex(bytes, i))
  }

  function Decode(indices: seq<nat>): (r: seq<byte>)
    requires |indices| == 24
    ensures |r| == 33
  {
    seq(33, m requires 0 <= m < 33 => DecodedByte(indices, 24, m))
  }

  predicate Indices(indices: seq<nat>) {
    |indices| == 24 && forall i :: 0 <= i < 24 ==> Fits(indices[i], 11)
  }

  lemma DecodeBit(indices: seq<nat>, g: nat)
    requires Indices(indices) && g < 264
    ensures StreamBit(Decode(indices), g) == (Writes(g / 11, g) && Bit(indices[g / 11], 10 - g % 11))
  {
    DecodedBit(indices, 24, g);
  }

  /** Packing and unpacking keeps every bit outside the three-byte windows and clears every bit inside them. */
  lemma RoundTripBit(bytes: seq<byte>, g: nat)
    requires |bytes| == 33 && g < 264
    ensures StreamBit(Decode(Encode(bytes)), g) == (StreamBit(bytes, g) && !Spans3(g / 11))
  {
    var i, t := g / 11, g % 11;
    assert 11 * i + t == g;
    DecodeBit(Encode(bytes), g);
    WordBits(bytes, i, t);
  }

  lemma SameStream(a: seq<byte>, b: seq<byte>)
    requires |a| == |b|
    requires forall g :: 0 <= g < 8 * |a| ==> StreamBit(a, g) == StreamBit(b, g)
    ensures a == b
  {
    forall m | 0 <= m < |a|
      ensures a[m] == b[m]
    {
      forall t | 0 <= t < 8
        ensures Bit(a[m], t) == Bit(b[m], t)
      {
        assert (8 * m + (7 - t)) / 8 == m && (8 * m + (7 - t)) % 8 == 7 - t;
        assert StreamBit(a, 8 * m + (7 - t)) == StreamBit(b, 8 * m + (7 - t));
      }
      ByteFits(a[m]);
      ByteFits(b[m]);
      SameBits(a[m], b[m], 8);
    }
  }

  // ---- BIP-39 ----

  /** The number with these bits, most significant first. */
  function Number(bits: seq<bool>): nat {
    if bits == [] then 0
    else 2 * Number(bits[..|bits| - 1]) + if bits[|bits| - 1] then 1 else 0
  }

  lemma {:induction false} NumberBit(bits: seq<bool>, t: nat)
    requires t < |bits|
    ensures Bit(Number(bits), |bits| - 1 - t) == bits[t]
    decreases |bits|
  {
    var n, before := Number(bits), Number(bits[..|bits| - 1]);
    assert n / 2 == before && (n % 2 == 1 <==> bits[|bits| - 1]);
    if t < |bits| - 1 { NumberBit(bits[..|bits| - 1], t); }
  }

  lemma {:induction false} NumberFits(bits: seq<bool>)
    ensures Fits(Number(bits), |bits|)
    decreases |bits|
  {
    if bits != [] { NumberFits(bits[..|bits| - 1]); }
  }

  function Bits(bytes: seq<byte>): (r: seq<bool>)
    ensures |r| == 8 * |bytes|
  {
    seq(8 * |bytes|, g requires 0 <= g < 8 * |bytes| => StreamBit(bytes, g))
  }

  /** The bit stream cut into 24 groups of 11. */
  function StandardEncode(bytes: seq<byte>): (r: seq<nat>)
    requires |bytes| == 33
    ensures |r| == 24
  {
    seq(24, i requires 0 <= i < 24 => Number(Bits(bytes)[11 * i..11 * i + 11]))
  }

  function IndexBits(indices: seq<nat>): (r: seq<bool>)
    requires |indices| == 24
    ensures |r| == 264
  {
    seq(264, g requires 0 <= g < 264 => Bit(indices[g / 11], 10 - g % 11))
  }

  /** The 24 groups put together again and cut into 33 bytes. */
  function StandardDecode(indices: seq<nat>): (r: seq<byte>)
    requires |indices| == 24
    ensures |r| == 33
  {
    seq(33, m requires 0 <= m < 33 => NumberByte(IndexBits(indices)[8 * m..8 * m + 8]))
  }

  function NumberByte(bits: seq<bool>): byte
    requires |bits| == 8
  {
    NumberFits(bits);
    FitsIffBelow(Number(bits), 8);
    Widths();
    Number(bits)
  }

  lemma StandardWordBit(bytes: seq<byte>, i: nat, t: nat)
    requires |bytes| == 33 && i < 24 && t < 11
    ensures Bit(StandardEncode(bytes)[i], 10 - t) == StreamBit(bytes, 11 * i + t)
    ensures Fits(StandardEncode(bytes)[i], 11)
  {
    var bits := Bits(bytes)[11 * i..11 * i + 11];
    NumberBit(bits, t);
    NumberFits(bits);
  }

  lemma StandardByteBit(indices: seq<nat>, g: nat)
    requires |indices| == 24 && g < 264
    ensures StreamBit(StandardDecode(indices), g) == Bit(indices[g / 11], 10 - g % 11)
  {
    var m := g / 8;
    assert 8 * m + g % 8 == g;
    NumberBit(IndexBits(indices)[8 * m..8 * m + 8], g % 8);
  }

  lemma StandardIndices(bytes: seq<byte>)
    requires |bytes| == 33
    ensures Indices(StandardEncode(bytes))
  {
    forall i | 0 <= i < 24 ensures Fits(StandardEncode(bytes)[i], 11) {
      StandardWordBit(bytes, i, 0);
    }
  }

  /** Reading whole windows makes packing a bijection between 33 bytes and 24 indices. */
  lemma StandardRoundTrip(bytes: seq<byte>)
    requires |bytes| == 33
    ensures StandardDecode(StandardEncode(bytes)) == bytes
  {
    forall g | 0 <= g < 264
      ensures StreamBit(StandardDecode(StandardEncode(bytes)), g) == StreamBit(bytes, g)
    {
      StandardByteBit(StandardEncode(bytes), g);
      StandardWordBit(bytes, g / 11, g % 11);
      assert 11 * (g / 11) + g % 11 == g;
    }
    SameStream(StandardDecode(StandardEncode(bytes)), bytes);
  }

  lemma StandardRoundTripBack(indices: seq<nat>)
    requires Indices(indices)
    ensures StandardEncode(StandardDecode(indices)) == indices
  {
    var bytes := StandardDecode(indices);
    forall i | 0 <= i < 24
      ensures StandardEncode(bytes)[i] == indices[i]
    {
      forall t | 0 <= t < 11
        ensures Bit(StandardEncode(bytes)[i], t) == Bit(indices[i], t)
      {
        var g := 11 * i + (10 - t);
        StandardWordBit(bytes, i, 10 - t);
        StandardByteBit(indices, g);
        assert g / 11 == i && g % 11 == 10 - t;
      }
      StandardWordBit(bytes, i, 0);
      SameBits(StandardEncode(bytes)[i], indices[i], 11);
    }
  }

  /** Outside six windows the code reads what BIP-39 asks for; in words 2, 5, 10, 13, 18 and 21 it reads 0. */
  lemma EncodeAgainstBip39(bytes: seq<byte>, i: nat)
    requires |bytes| == 33 && i < 24
    ensures Encode(bytes)[i] == if i in {2, 5, 10, 13, 18, 21} then 0 else StandardEncode(bytes)[i]
  {
    SpansExactly(i);
    forall t | 0 <= t < 11
      ensures Bit(WordIndex(bytes, i), t) == (!Spans3(i) && Bit(StandardEncode(bytes)[i], t))
    {
      WordBits(bytes, i, 10 - t);
      StandardWordBit(bytes, i, 10 - t);
    }
    StandardWordBit(bytes, i, 0);
    if Spans3(i) {
      forall t | 0 <= t < 11 ensures Bit(WordIndex(bytes, i), t) == Bit(0, t) { ZeroBit(t); }
      ZeroFits(11);
      SameBits(WordIndex(bytes, i), 0, 11);
    } else {
      SameBits(WordIndex(bytes, i), StandardEncode(bytes)[i], 11);
    }
  }

  predicate SixWindowsZero(bytes: seq<byte>)
    requires |bytes| == 33
  {
    forall i :: i in {2, 5, 10, 13, 18, 21} ==> StandardEncode(bytes)[i] == 0
  }

  lemma WindowCleared(bytes: seq<byte>, i: nat)
    requires |bytes| == 33 && Decode(Encode(bytes)) == bytes && i < 24 && Spans3(i)
    ensures StandardEncode(bytes)[i] == 0
  {
    forall t | 0 <= t < 11
      ensures Bit(StandardEncode(bytes)[i], t) == Bit(0, t)
    {
      var g := 11 * i + (10 - t);
      assert g / 11 == i;
      RoundTripBit(bytes, g);
      StandardWordBit(bytes, i, 10 - t);
      ZeroBit(t);
    }
    StandardWordBit(bytes, i, 0);
    ZeroFits(11);
    SameBits(StandardEncode(bytes)[i], 0, 11);
  }

  lemma ClearBits(bytes: seq<byte>, g: nat)
    requires |bytes| == 33 && SixWindowsZero(bytes) && g < 264
    ensures StreamBit(Decode(Encode(bytes)), g) == StreamBit(bytes, g)
  {
    RoundTripBit(bytes, g);
    SpansExactly(g / 11);
    StandardWordBit(bytes, g / 11, g % 11);
    ZeroBit(10 - g % 11);
    assert 11 * (g / 11) + g % 11 == g;
  }

  /** Packing inverts exactly when those six windows are zero. */
  lemma RoundTripIff(bytes: seq<byte>)
    requires |bytes| == 33
    ensures Decode(Encode(bytes)) == bytes <==> SixWindowsZero(bytes)
  {
    if Decode(Encode(bytes)) == bytes {
      forall i | i in {2, 5, 10, 13, 18, 21}
        ensures StandardEncode(bytes)[i] == 0
      {
        SpansExactly(i);
        WindowCleared(bytes, i);
      }
    }
    if SixWindowsZero(bytes) {
      forall g | 0 <= g < 264
        ensures StreamBit(Decode(Encode(bytes)), g) == StreamBit(bytes, g)
      {
        ClearBits(bytes, g);
      }
      SameStream(Decode(Encode(bytes)), bytes);
    }
  }

  /** A phrase made by another BIP-39 program is read with six whole bytes cleared. */
  lemma ImportOfStandardPhrase(bytes: seq<byte>, m: nat)
    requires |bytes| == 33 && m < 33
    ensures Decode(StandardEncode(bytes))[m] == if m in {3, 7, 14, 18, 25, 29} then 0 else bytes[m]
  {
    StandardIndices(bytes);
    var target: byte := if m in {3, 7, 14, 18, 25, 29} then 0 else bytes[m];
    var got := Decode(StandardEncode(bytes))[m];
    forall t | 0 <= t < 8
      ensures Bit(got, t) == Bit(target, t)
    {
      var g := 8 * m + (7 - t);
      assert g / 8 == m && g % 8 == 7 - t;
      DecodeBit(StandardEncode(bytes), g);
      StandardWordBit(bytes, g / 11, g % 11);
      assert 11 * (g / 11) + g % 11 == g;
      MiddleBytes(m, g);
      ZeroBit(t);
    }
    ByteFits(got);
    ByteFits(target);
    SameBits(got, target, 8);
  }

  lemma MiddleBytes(m: nat, g: nat)
    requires m < 33 && g / 8 == m
    ensures Writes(g / 11, g) <==> m !in {3, 7, 14, 18, 25, 29}
  {
  }

  // ---- Words ----

  /** `words.join(' ')` */
  function Join(words: seq<string>): string {
    if words == [] then "" else if |words| == 1 then words[0] else words[0] + " " + Join(words[1..])
  }

  /** `s.split(/\s+/)`, `word` being what was read since the last separator. */
  function Split(s: string, word: string): seq<string>
    decreases |s|
  {
    if s == "" then [word]
    else if IsSpace(s[0]) then [word] + Split(SkipSpaces(s[1..]), "")
    else Split(s[1..], word + [s[0]])
  }

  predicate IsWord(w: string) { w != "" && forall k :: 0 <= k < |w| ==> !IsSpace(w[k]) }

  lemma {:induction false} SplitWord(w: string, rest: string, word: string)
    requires forall k :: 0 <= k < |w| ==> !IsSpace(w[k])
    ensures Split(w + rest, word) == Split(rest, word + w)
    decreases |w|
  {
    if w == "" {
      assert w + rest == rest && word + w == word;
    } else {
      assert (w + rest)[1..] == w[1..] + rest;
      SplitWord(w[1..], rest, word + [w[0]]);
      assert word + [w[0]] + w[1..] == word + w;
    }
  }

  lemma {:induction false} SplitJoin(words: seq<string>)
    requires words != [] && forall i :: 0 <= i < |words| ==> IsWord(words[i])
    ensures Split(Join(words), "") == words
    decreases |words|
  {
    if |words| == 1 {
      assert words[0] + "" == words[0] && "" + words[0] == words[0];
      SplitWord(words[0], "", "");
      assert words == [words[0]];
    } else {
      var rest := Join(words[1..]);
      assert IsWord(words[1]);
      assert Join(words) == words[0] + (" " + rest);
      SplitWord(words[0], " " + rest, "");
      assert "" + words[0] == words[0] && (" " + rest)[1..] == rest;
      JoinStarts(words[1..]);
      assert SkipSpaces(rest) == rest;
      SplitJoin(words[1..]);
      assert words == [words[0]] + words[1..];
    }
  }

  lemma JoinStarts(words: seq<string>)
    requires words != [] && forall i :: 0 <= i < |words| ==> IsWord(words[i])
    ensures Join(words) != "" && !IsSpace(Join(words)[0])
  {
    assert IsWord(words[0]);
  }

  lemma {:induction false} JoinEnds(words: seq<string>)
    requires words != [] && forall i :: 0 <= i < |words| ==> IsWord(words[i])
    ensures Join(words) != "" && !IsSpace(Join(words)[|Join(words)| - 1])
    decreases |words|
  {
    assert IsWord(words[0]);
    if |words| > 1 {
      JoinEnds(words[1..]);
    }
  }

  // ---- generateRecoveryPhrase and recoverFromPhrase ----

  datatype Error = WordlistNotLoaded | BadKeyLength | BadWordCount | UnknownWord(word: string) | ChecksumMismatch

  predicate Wordlist(list: seq<string>) {
    && |list| == 2048
    && (forall i :: 0 <= i < 2048 ==> IsWord(list[i]))
    && (forall i, j :: 0 <= i < j < 2048 ==> list[i] != list[j])
  }

  function Xor(x: nat, y: nat): nat
    decreases x + y
  {
    if x == 0 && y == 0 then 0
    else (if x % 2 != y % 2 then 1 else 0) + 2 * Xor(x / 2, y / 2)
  }

  /** The checksum of phrases made by older versions: the XOR of all key bytes. */
  function LegacyChecksum(key: seq<byte>): nat {
    if key == [] then 0 else Xor(LegacyChecksum(key[..|key| - 1]), key[|key| - 1])
  }

  /** `wordlist.indexOf(word)` */
  function IndexOf(list: seq<string>, word: string): (r: Option<nat>)
    ensures r.Some? ==> r.value < |list| && list[r.value] == word && word !in list[..r.value]
    ensures r.None? ==> word !in list
  {
    if list == [] then None
    else if list[0] == word then Some(0)
    else match IndexOf(list[1..], word)
      case None => None
      case Some(i) => Some(i + 1)
  }

  function Lookup(words: seq<string>, list: seq<string>): (r: Result<seq<nat>, Error>)
    ensures r.Success? ==> |r.value| == |words|
  {
    if words == [] then Success([])
    else match Lookup(words[..|words| - 1], list)
      case Failure(e) => Failure(e)
      case Success(indices) =>
        match IndexOf(list, words[|words| - 1])
        case None => Failure(UnknownWord(words[|words| - 1]))
        case Some(i) => Success(indices + [i])
  }

  /** The key a decoded phrase stands for, if its checksum agrees (lines 327-341). */
  function Checked(bytes: seq<byte>, sha: seq<byte> -> byte): Result<seq<byte>, Error>
    requires |bytes| == 33
  {
    var key := bytes[..32];
    if sha(key) == bytes[32] || LegacyChecksum(key) == bytes[32] then Success(key) else Failure(ChecksumMismatch)
  }

  function Recovered(phrase: string, list: seq<string>, lower: string -> string, sha: seq<byte> -> byte)
    : Result<seq<byte>, Error>
  {
    if |list| != 2048 then Failure(WordlistNotLoaded)
    else
      var words := Split(lower(Trim(phrase)), "");
      if |words| != 24 then Failure(BadWordCount)
      else match Lookup(words, list)
        case Failure(e) => Failure(e)
        case Success(indices) => Checked(Decode(indices), sha)
  }

  function PhraseWords(key: seq<byte>, list: seq<string>, sha: seq<byte> -> byte): (r: seq<string>)
    requires |key| == 32 && |list| == 2048
    ensures |r| == 24
  {
    var indices := Encode(key + [sha(key)]);
    seq(24, i requires 0 <= i < 24 => list[indices[i]])
  }

  /** The loop of lines 266-278, for a key of the right length. */
  method GenerateRecoveryPhrase(key: seq<byte>, list: seq<string>, sha: seq<byte> -> byte)
    returns (r: Result<string, Error>)
    ensures |list| != 2048 ==> r == Failure(WordlistNotLoaded)
    ensures |list| == 2048 && |key| != 32 ==> r == Failure(BadKeyLength)
    ensures |list| == 2048 && |key| == 32 ==> r == Success(Join(PhraseWords(key, list, sha)))
  {
    if |list| != 2048 { return Failure(WordlistNotLoaded); }
    if |key| != 32 { return Failure(BadKeyLength); }
    var allBytes := key + [sha(key)];
    var words: seq<string> := [];
    var i := 0;
    while i < 24
      invariant 0 <= i <= 24 && words == PhraseWords(key, list, sha)[..i]
    {
      var byteIndex: int, bitIndex: int := ByteIndex(i), BitIndex(i);
      var both := Or(Shl(allBytes[byteIndex], 8), if byteIndex + 1 < |allBytes| then allBytes[byteIndex + 1] else 0);
      var index := Mask(Shr(both, 16 - 11 - bitIndex), 11);
      assert index == Encode(allBytes)[i];
      words := words + [list[index]];
      i := i + 1;
    }
    assert words == PhraseWords(key, list, sha);
    r := Success(Join(words));
  }

  /** recoverFromPhrase up to the point where it has the key. */
  method RecoverKey(phrase: string, list: seq<string>, lower: string -> string, sha: seq<byte> -> byte)
    returns (r: Result<seq<byte>, Error>)
    ensures r == Recovered(phrase, list, lower, sha)
  {
    if |list| != 2048 { return Failure(WordlistNotLoaded); }
    var words := Split(lower(Trim(phrase)), "");
    if |words| != 24 { return Failure(BadWordCount); }
    var indices: seq<nat> := [];
    var w := 0;
    while w < 24
      invariant 0 <= w <= 24 && Lookup(words[..w], list) == Success(indices)
    {
      assert words[..w + 1][..w] == words[..w];
      match IndexOf(list, words[w]) {
        case None =>
          LookupFails(words, list, w + 1);
          return Failure(UnknownWord(words[w]));
        case Some(idx) =>
          indices := indices + [idx];
      }
      w := w + 1;
    }
    assert words[..24] == words;
    var bytes := Unpack(indices);
    r := Checked(bytes, sha);
  }

  lemma {:induction false} LookupFails(words: seq<string>, list: seq<string>, n: nat)
    requires n <= |words| && Lookup(words[..n], list).Failure?
    ensures Lookup(words, list) == Lookup(words[..n], list)
    decreases |words| - n
  {
    if n < |words| {
      assert words[..n + 1][..n] == words[..n];
      LookupFails(words, list, n + 1);
    } else {
      assert words[..n] == words;
    }
  }

  /** The loop of lines 309-325, in place on a byte array. */
  method Unpack(indices: seq<nat>) returns (bytes: seq<byte>)
    requires |indices| == 24
    ensures bytes == Decode(indices)
  {
    var allBytes := new byte[33](_ => 0);
    var i := 0;
    while i < 24
      invariant 0 <= i <= 24
      invariant forall m :: 0 <= m < 33 ==> allBytes[m] == DecodedByte(indices, i, m)
    {
      OrWord(allBytes, i, indices[i]);
      i := i + 1;
    }
    bytes := allBytes[..];
  }

  /** The body of the loop. */
  method OrWord(allBytes: array<byte>, i: nat, val: nat)
    requires allBytes.Length == 33 && i < 24
    modifies allBytes
    ensures forall m :: 0 <= m < 33 ==> allBytes[m] == Or(old(allBytes[m]), Contribution(i, val, m))
  {
    var byteIndex: int, bitIndex: int := ByteIndex(i), BitIndex(i);
    OrMasked(allBytes, byteIndex, Shr(val, 11 - (8 - bitIndex)));
    var remaining: int := 11 - (8 - bitIndex);
    if remaining > 0 && byteIndex + 1 < 33 {
      OrMasked(allBytes, byteIndex + 1, Shl(val, 8 - remaining));
      if remaining > 8 && byteIndex + 2 < 33 {
        OrMasked(allBytes, byteIndex + 2, Shl(val, 16 - remaining));
      }
    }
    forall m | 0 <= m < 33
      ensures allBytes[m] == Or(old(allBytes[m]), Contribution(i, val, m))
    {
      OrZero(old(allBytes[m]));
    }
  }

  /** `bytes[m] |= x & 0xff` */
  method OrMasked(bytes: array<byte>, m: nat, x: nat)
    requires m < bytes.Length
    modifies bytes
    ensures bytes[m] == Or(old(bytes[m]), Mask(x, 8))
    ensures forall k :: 0 <= k < bytes.Length && k != m ==> bytes[k] == old(bytes[k])
  {
    ByteFits(bytes[m]);
    MaskFits(x, 8);
    OrFits(bytes[m], Mask(x, 8), 8);
    FitsIffBelow(Or(bytes[m], Mask(x, 8)), 8);
    Widths();
    bytes[m] := Or(bytes[m], Mask(x, 8));
  }

  lemma {:induction false} IndexOfDistinct(list: seq<string>, i: nat)
    requires i < |list| && forall a, b :: 0 <= a < b < |list| ==> list[a] != list[b]
    ensures IndexOf(list, list[i]) == Some(i)
    decreases |list|
  {
    if i > 0 { IndexOfDistinct(list[1..], i - 1); }
  }

  lemma {:induction false} LookupFinds(words: seq<string>, list: seq<string>, indices: seq<nat>)
    requires Wordlist(list) && |words| == |indices|
    requires forall i :: 0 <= i < |words| ==> indices[i] < 2048 && words[i] == list[indices[i]]
    ensures Lookup(words, list) == Success(indices)
    decreases |words|
  {
    if words != [] {
      var n := |words| - 1;
      LookupFinds(words[..n], list, indices[..n]);
      assert indices == indices[..n] + [indices[n]];
      IndexOfDistinct(list, indices[n]);
    }
  }

  /** Reading back a phrase this code made: the key with its six windows cleared, provided the checksum of that
      still agrees. */
  lemma RecoverGenerated(key: seq<byte>, list: seq<string>, lower: string -> string, sha: seq<byte> -> byte)
    requires |key| == 32 && Wordlist(list)
    requires lower(Join(PhraseWords(key, list, sha))) == Join(PhraseWords(key, list, sha))
    ensures Recovered(Join(PhraseWords(key, list, sha)), list, lower, sha)
         == Checked(Decode(Encode(key + [sha(key)])), sha)
  {
    var words := PhraseWords(key, list, sha);
    var indices := Encode(key + [sha(key)]);
    forall i | 0 <= i < 24 ensures IsWord(words[i]) { assert words[i] == list[indices[i]]; }
    SplitJoin(words);
    JoinStarts(words);
    JoinEnds(words);
    LookupFinds(words, list, indices);
  }

  /** So a key is recovered exactly when its six windows are zero. */
  lemma KeyRecoveredIff(key: seq<byte>, list: seq<string>, lower: string -> string, sha: seq<byte> -> byte)
    requires |key| == 32 && Wordlist(list)
    requires lower(Join(PhraseWords(key, list, sha))) == Join(PhraseWords(key, list, sha))
    ensures Recovered(Join(PhraseWords(key, list, sha)), list, lower, sha) == Success(key)
            <==> SixWindowsZero(key + [sha(key)])
  {
    var bytes := key + [sha(key)];
    var back := Decode(Encode(bytes));
    RecoverGenerated(key, list, lower, sha);
    RoundTripIff(bytes);
    LastByteKept(bytes);
    if back[..32] == key {
      assert back == back[..32] + [back[32]];
    }
    if back == bytes {
      assert back[..32] == key;
    }
  }

  lemma LastByteBit(bytes: seq<byte>, t: nat)
    requires |bytes| == 33 && t < 8
    ensures Bit(Decode(Encode(bytes))[32], t) == Bit(bytes[32], t)
  {
    var g := 256 + (7 - t);
    assert g / 8 == 32 && g % 8 == 7 - t && g / 11 == 23;
    RoundTripBit(bytes, g);
  }

  /** The checksum byte lies in word 23 and always survives. */
  lemma LastByteKept(bytes: seq<byte>)
    requires |bytes| == 33
    ensures Decode(Encode(bytes))[32] == bytes[32]
  {
    var back := Decode(Encode(bytes));
    forall t | 0 <= t < 8
      ensures Bit(back[32], t) == Bit(bytes[32], t)
    {
      LastByteBit(bytes, t);
    }
    ByteFits(back[32]);
    ByteFits(bytes[32]);
    SameBits(back[32], bytes[32], 8);
  }

  // ---- What is accepted ----

  lemma {:induction false} XorBit(x: nat, y: nat, t: nat)
    ensures Bit(Xor(x, y), t) <==> (Bit(x, t) != Bit(y, t))
    decreases t
  {
    if x == 0 && y == 0 {
      ZeroBit(t);
    } else {
      var r := Xor(x, y);
      assert r / 2 == Xor(x / 2, y / 2) && (r % 2 == 1 <==> x % 2 != y % 2);
      if t > 0 { XorBit(x / 2, y / 2, t - 1); }
    }
  }

  /** How many bytes have the bit. */
  function Having(key: seq<byte>, t: nat): nat {
    if key == [] then 0 else Having(key[..|key| - 1], t) + if Bit(key[|key| - 1], t) then 1 else 0
  }

  /** A bit of the older checksum is set iff an odd number of key bytes have it. */
  lemma {:induction false} LegacyBit(key: seq<byte>, t: nat)
    ensures Bit(LegacyChecksum(key), t) <==> Having(key, t) % 2 == 1
    decreases |key|
  {
    if key == [] {
      ZeroBit(t);
    } else {
      LegacyBit(key[..|key| - 1], t);
      XorBit(LegacyChecksum(key[..|key| - 1]), key[|key| - 1], t);
    }
  }

  /** The words are found, each at its first place in the list. */
  ghost predicate FoundAt(words: seq<string>, list: seq<string>, indices: seq<nat>) {
    |indices| == |words| && forall i :: 0 <= i < |words| ==>
      indices[i] < |list| && list[indices[i]] == words[i] && words[i] !in list[..indices[i]]
  }

  /** The k-th word is the first that the list does not have. */
  ghost predicate FirstUnknown(words: seq<string>, list: seq<string>, k: nat) {
    k < |words| && words[k] !in list && forall i :: 0 <= i < k ==> words[i] in list
  }

  /** The lookup finds every word, or reports the first that the list does not have. */
  lemma {:induction false} LookupMeans(words: seq<string>, list: seq<string>)
    ensures match Lookup(words, list)
            case Success(indices) => FoundAt(words, list, indices)
            case Failure(e) => e.UnknownWord? && exists k: nat :: FirstUnknown(words, list, k) && e.word == words[k]
    decreases |words|
  {
    if words != [] {
      var n := |words| - 1;
      LookupMeans(words[..n], list);
      match Lookup(words[..n], list)
      case Failure(e) =>
        var k: nat :| FirstUnknown(words[..n], list, k) && e.word == words[..n][k];
        assert FirstUnknown(words, list, k);
      case Success(indices) =>
        assert forall i :: 0 <= i < n ==> words[i] == words[..n][i] && words[i] in list;
        if IndexOf(list, words[n]).None? { assert FirstUnknown(words, list, n); }
    }
  }

  /** The last byte is the hash of the others, or has their older checksum: for each bit, whether an odd number of them
      have it. */
  ghost predicate Agrees(bytes: seq<byte>, sha: seq<byte> -> byte)
    requires |bytes| == 33
  {
    sha(bytes[..32]) == bytes[32] || SumsTo(bytes[..32], bytes[32])
  }

  ghost predicate SumsTo(key: seq<byte>, sum: byte) {
    forall t :: 0 <= t < 8 ==> (Bit(sum, t) <==> Having(key, t) % 2 == 1)
  }

  lemma {:induction false} XorFits(x: nat, y: nat, n: nat)
    requires Fits(x, n) && Fits(y, n)
    ensures Fits(Xor(x, y), n)
    decreases n
  {
    if n > 0 && !(x == 0 && y == 0) {
      assert Xor(x, y) / 2 == Xor(x / 2, y / 2);
      XorFits(x / 2, y / 2, n - 1);
    }
  }

  lemma {:induction false} LegacyFits(key: seq<byte>)
    ensures Fits(LegacyChecksum(key), 8)
    decreases |key|
  {
    if key == [] {
      ZeroFits(8);
    } else {
      LegacyFits(key[..|key| - 1]);
      ByteFits(key[|key| - 1]);
      XorFits(LegacyChecksum(key[..|key| - 1]), key[|key| - 1], 8);
    }
  }

  lemma SumsToIff(key: seq<byte>, sum: byte)
    ensures LegacyChecksum(key) == sum <==> SumsTo(key, sum)
  {
    forall t | 0 <= t < 8 ensures Bit(LegacyChecksum(key), t) <==> Having(key, t) % 2 == 1 { LegacyBit(key, t); }
    LegacyFits(key);
    ByteFits(sum);
    if SumsTo(key, sum) { SameBits(LegacyChecksum(key), sum, 8); }
  }

  lemma CheckedMeans(bytes: seq<byte>, sha: seq<byte> -> byte)
    requires |bytes| == 33
    ensures Checked(bytes, sha) == if Agrees(bytes, sha) then Success(bytes[..32]) else Failure(ChecksumMismatch)
  {
    SumsToIff(bytes[..32], bytes[32]);
  }

  /** What recovering a phrase gives, by its words: which error, or the key whose checksum agrees. */
  ghost predicate Gives(words: seq<string>, list: seq<string>, sha: seq<byte> -> byte, r: Result<seq<byte>, Error>) {
    if |list| != 2048 then r == Failure(WordlistNotLoaded)
    else if |words| != 24 then r == Failure(BadWordCount)
    else
      || (exists k: nat :: FirstUnknown(words, list, k) && r == Failure(UnknownWord(words[k])))
      || (exists indices :: FoundAt(words, list, indices)
           && r == if Agrees(Decode(indices), sha) then Success(Decode(indices)[..32]) else Failure(ChecksumMismatch))
  }

  lemma LookedUp(words: seq<string>, list: seq<string>, sha: seq<byte> -> byte)
    requires |list| == 2048 && |words| == 24
    ensures Gives(words, list, sha, match Lookup(words, list)
                                    case Failure(e) => Failure(e)
                                    case Success(indices) => Checked(Decode(indices), sha))
  {
    LookupMeans(words, list);
    match Lookup(words, list)
    case Failure(e) =>
    case Success(indices) =>
      CheckedMeans(Decode(indices), sha);
      assert FoundAt(words, list, indices);
  }

  lemma RecoveredMeans(phrase: string, list: seq<string>, lower: string -> string, sha: seq<byte> -> byte)
    ensures Gives(Split(lower(Trim(phrase)), ""), list, sha, Recovered(phrase, list, lower, sha))
  {
    var words := Split(lower(Trim(phrase)), "");
    if |list| == 2048 && |words| == 24 { LookedUp(words, list, sha); }
  }

  // ---- White space and case ----

  /** Words with white space between them. */
  function Spaced(words: seq<string>, gaps: seq<string>): string
    requires |words| == |gaps| + 1
  {
    if gaps == [] then words[0] else words[0] + (gaps[0] + Spaced(words[1..], gaps[1..]))
  }

  lemma {:induction false} SkipGap(gap: string, rest: string)
    requires White(gap) && rest != "" && !IsSpace(rest[0])
    ensures SkipSpaces(gap + rest) == rest
    decreases |gap|
  {
    if gap == "" {
      assert gap + rest == rest;
    } else {
      assert (gap + rest)[1..] == gap[1..] + rest;
      SkipGap(gap[1..], rest);
    }
  }

  lemma SpacedStarts(words: seq<string>, gaps: seq<string>)
    requires |words| == |gaps| + 1 && forall i :: 0 <= i < |words| ==> IsWord(words[i])
    ensures Spaced(words, gaps) != "" && !IsSpace(Spaced(words, gaps)[0])
  {
    assert IsWord(words[0]);
  }

  /** However the words are set apart, they are split again. */
  lemma {:induction false} SplitSpaced(words: seq<string>, gaps: seq<string>)
    requires |words| == |gaps| + 1 && forall i :: 0 <= i < |words| ==> IsWord(words[i])
    requires forall i :: 0 <= i < |gaps| ==> gaps[i] != "" && White(gaps[i])
    ensures Split(Spaced(words, gaps), "") == words
    decreases |words|
  {
    if gaps == [] {
      assert words[0] + "" == words[0] && "" + words[0] == words[0];
      SplitWord(words[0], "", "");
      assert words == [words[0]];
    } else {
      var rest := Spaced(words[1..], gaps[1..]);
      var gap := gaps[0];
      SplitWord(words[0], gap + rest, "");
      assert "" + words[0] == words[0] && (gap + rest)[1..] == gap[1..] + rest;
      SpacedStarts(words[1..], gaps[1..]);
      SkipGap(gap[1..], rest);
      SplitSpaced(words[1..], gaps[1..]);
      assert words == [words[0]] + words[1..];
    }
  }

  /** A phrase is recovered whatever white space stands around and between its words, and in any case of its letters. */
  lemma SpacedRecovers(text: string, words: seq<string>, gaps: seq<string>, list: seq<string>, lower: string -> string,
                       sha: seq<byte> -> byte)
    requires |words| == 24 && |gaps| == 23 && forall i :: 0 <= i < 24 ==> IsWord(words[i])
    requires forall i :: 0 <= i < 23 ==> gaps[i] != "" && White(gaps[i])
    requires exists a, core, b :: White(a) && White(b) && text == a + core + b && lower(core) == Spaced(words, gaps)
                                  && core != "" && !IsSpace(core[0]) && !IsSpace(core[|core| - 1])
    ensures Gives(words, list, sha, Recovered(text, list, lower, sha))
  {
    var a, core, b :| White(a) && White(b) && text == a + core + b && lower(core) == Spaced(words, gaps)
                      && core != "" && !IsSpace(core[0]) && !IsSpace(core[|core| - 1]);
    TrimAround(a, core, b);
    SplitSpaced(words, gaps);
    RecoveredMeans(text, list, lower, sha);
  }

  lemma TrimAround(a: string, core: string, b: string)
    requires White(a) && White(b) && core != "" && !IsSpace(core[0]) && !IsSpace(core[|core| - 1])
    ensures Trim(a + core + b) == core
  {
    assert a + core + b == a + (core + b);
    SkipGap(a, core + b);
    TrimEndOf(core, b);
  }

  lemma {:induction false} TrimEndOf(core: string, b: string)
    requires White(b) && core != "" && !IsSpace(core[|core| - 1])
    ensures TrimEnd(core + b) == core
    decreases |b|
  {
    if b == "" {
      assert core + b == core;
    } else {
      assert (core + b)[..|core + b| - 1] == core + b[..|b| - 1];
      TrimEndOf(core, b[..|b| - 1]);
    }
  }
}
