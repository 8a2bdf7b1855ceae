/** decode_sample and the downmixes of client/src-tauri/src/audio_capture.rs.  Samples are real numbers: 16- and 24-bit
    samples are exact in an f32, sums are not rounded here, and the meaning of four float bytes is a parameter. */
module PcmCapture {
  import opened Numbers
  import JsBits

  type Float = (byte, byte, byte, byte) -> real

  // ---- One sample ----

  /** `i16::from_le_bytes` */
  function Signed16(b0: byte, b1: byte): int {
    var u := b0 + 256 * b1;
    if u < 0x8000 then u else u - 0x1_0000
  }

  /** `b0 | b1 << 8 | b2 << 16` */
  function Raw24(b0: byte, b1: byte, b2: byte): nat {
    JsBits.Or(JsBits.Or(b0, JsBits.Double(b1, 8)), JsBits.Double(b2, 16))
  }

  /** An i32 from its 32 bits. */
  function Signed32(u: nat): int {
    if u < 0x8000_0000 then u else u - 0x1_0000_0000
  }

  /** `if raw & 0x80_0000 != 0 { raw | !0xFF_FFFF } else { raw }`: the sign is extended over the top eight bits. */
  function Signed24(b0: byte, b1: byte, b2: byte): int {
    var raw := Raw24(b0, b1, b2);
    if JsBits.Bit(raw, 23) then Signed32(JsBits.Or(raw, 0xFF00_0000)) else raw
  }

  /** decode_sample */
  function DecodeSample(data: seq<byte>, offset: nat, width: nat, float: Float): real
    requires offset + width <= |data|
  {
    if width == 4 then float(data[offset], data[offset + 1], data[offset + 2], data[offset + 3])
    else if width == 2 then Signed16(data[offset], data[offset + 1]) as real / 32768.0
    else if width == 3 then Signed24(data[offset], data[offset + 1], data[offset + 2]) as real / 8388608.0
    else 0.0
  }

  // ---- The bit operations are two's complement ----

  lemma {:induction false} OrBelow(x: nat, y: nat, n: nat)
    requires JsBits.Fits(x, n)
    ensures JsBits.Or(x, JsBits.Double(y, n)) == x + JsBits.Double(y, n)
    decreases n
  {
    if n == 0 {
      ZeroOr(y);
    } else {
      OrBelow(x / 2, y, n - 1);
    }
  }

  lemma {:induction false} ZeroOr(y: nat)
    ensures JsBits.Or(0, y) == y
    decreases y
  {
    if y > 0 { ZeroOr(y / 2); }
  }

  lemma {:induction false} DoubleIs(y: nat, n: nat)
    ensures JsBits.Double(y, n) == y * Pow2(n)
  {
    if n > 0 { DoubleIs(y, n - 1); }
  }

  lemma {:induction false} TopBit(x: nat, n: nat)
    requires x < 2 * Pow2(n)
    ensures JsBits.Bit(x, n) <==> x >= Pow2(n)
    decreases n
  {
    if n > 0 { TopBit(x / 2, n - 1); }
  }

  lemma Powers()
    ensures Pow2(8) == 0x100 && Pow2(16) == 0x1_0000
    ensures Pow2(23) == 0x80_0000 && Pow2(24) == 0x100_0000
  {
    assert Pow2(4) == 0x10;
    assert Pow2(8) == 0x100;
    assert Pow2(12) == 0x1000;
    assert Pow2(16) == 0x1_0000;
    assert Pow2(20) == 0x10_0000;
  }

  lemma RawIs(b0: byte, b1: byte, b2: byte)
    ensures Raw24(b0, b1, b2) == b0 + 0x100 * b1 + 0x1_0000 * b2
  {
    Powers();
    JsBits.FitsIffBelow(b0, 8);
    OrBelow(b0, b1, 8);
    DoubleIs(b1, 8);
    JsBits.FitsIffBelow(b0 + 0x100 * b1, 16);
    OrBelow(b0 + 0x100 * b1, b2, 16);
    DoubleIs(b2, 16);
  }

  /** The three bytes are a little-endian two's complement number. */
  lemma Signed24Is(b0: byte, b1: byte, b2: byte)
    ensures var u := b0 + 0x100 * b1 + 0x1_0000 * b2;
            Signed24(b0, b1, b2) == if u < 0x80_0000 then u else u - 0x100_0000
  {
    RawIs(b0, b1, b2);
    var raw := Raw24(b0, b1, b2);
    Powers();
    TopBit(raw, 23);
    JsBits.FitsIffBelow(raw, 24);
    OrBelow(raw, 255, 24);
    DoubleIs(255, 24);
    assert JsBits.Double(255, 24) == 0xFF00_0000;
  }

  /** The little-endian bytes of a two's complement number. */
  function Bytes(v: int, width: nat): (r: seq<byte>)
    ensures |r| == width
    decreases width
  {
    if width == 0 then [] else [v % 256] + Bytes(v / 256, width - 1)
  }

  lemma Bytes2(v: int)
    ensures Bytes(v, 2) == [v % 256, v / 256 % 256]
  {
    assert Bytes(v / 256, 1) == [v / 256 % 256] + Bytes(v / 256 / 256, 0);
  }

  lemma Bytes3(v: int)
    ensures Bytes(v, 3) == [v % 256, v / 256 % 256, v / 256 / 256 % 256]
  {
    Bytes2(v / 256);
  }

  /** Reading what was written gives the number back, scaled into [-1, 1). */
  lemma Decode16Encode(v: int, before: seq<byte>, after: seq<byte>, float: Float)
    requires -0x8000 <= v < 0x8000
    ensures var r := DecodeSample(before + Bytes(v, 2) + after, |before|, 2, float);
            r == v as real / 32768.0 && -1.0 <= r < 1.0
  {
    Bytes2(v);
    var data := before + Bytes(v, 2) + after;
    assert data[|before|] == v % 256 && data[|before| + 1] == v / 256 % 256;
    Recombine16(v);
    InUnit(v, 32768);
  }

  lemma Recombine16(v: int)
    requires -0x8000 <= v < 0x8000
    ensures v % 256 + 256 * (v / 256 % 256) == if v >= 0 then v else v + 0x1_0000
  {
  }

  lemma InUnit(v: int, scale: int)
    requires scale > 0 && -scale <= v < scale
    ensures -1.0 <= v as real / scale as real < 1.0
  {
    var q := v as real / scale as real;
    assert q * scale as real == v as real;
  }

  lemma Decode24Encode(v: int, before: seq<byte>, after: seq<byte>, float: Float)
    requires -0x80_0000 <= v < 0x80_0000
    ensures var r := DecodeSample(before + Bytes(v, 3) + after, |before|, 3, float);
            r == v as real / 8388608.0 && -1.0 <= r < 1.0
  {
    Bytes3(v);
    var data := before + Bytes(v, 3) + after;
    assert data[|before|] == v % 256 && data[|before| + 1] == v / 256 % 256
           && data[|before| + 2] == v / 256 / 256 % 256;
    Signed24Is(v % 256, v / 256 % 256, v / 256 / 256 % 256);
    Recombine(v);
    InUnit(v, 8388608);
  }

  lemma Recombine(v: int)
    requires -0x80_0000 <= v < 0x80_0000
    ensures var u := v % 256 + 0x100 * (v / 256 % 256) + 0x1_0000 * (v / 256 / 256 % 256);
            u == if v >= 0 then v else v + 0x100_0000
  {
  }

  /** Writing what was read gives the bytes back, so no two byte patterns decode to the same sample. */
  lemma Encode16Decode(b0: byte, b1: byte)
    ensures Bytes(Signed16(b0, b1), 2) == [b0, b1] && -0x8000 <= Signed16(b0, b1) < 0x8000
  {
    Bytes2(Signed16(b0, b1));
  }

  lemma Encode24Decode(b0: byte, b1: byte, b2: byte)
    ensures Bytes(Signed24(b0, b1, b2), 3) == [b0, b1, b2] && -0x80_0000 <= Signed24(b0, b1, b2) < 0x80_0000
  {
    Signed24Is(b0, b1, b2);
    Bytes3(Signed24(b0, b1, b2));
    Digits3(Signed24(b0, b1, b2), b0, b1, b2);
  }

  lemma Digits3(v: int, b0: byte, b1: byte, b2: byte)
    requires var u := b0 + 0x100 * b1 + 0x1_0000 * b2; v == if u < 0x80_0000 then u else u - 0x100_0000
    ensures v % 256 == b0 && v / 256 % 256 == b1 && v / 256 / 256 % 256 == b2
  {
    var high: int := if b2 < 0x80 then b2 else b2 - 0x100;
    var middle: int := b1 + 0x100 * high;
    assert v == b0 + 0x100 * middle;
    assert v / 256 == middle && middle / 256 == high;
  }

  // ---- Frames ----

  /** Whole frames in the data; none when a frame has no size. */
  function NumFrames(length: nat, channels: nat, width: nat): nat {
    if channels * width == 0 then 0 else length / (channels * width)
  }

  /** Where the code looks for a sample. */
  function Offset(channels: nat, width: nat, frame: nat, ch: nat): nat {
    frame * (channels * width) + ch * width
  }

  lemma SumOfParts(frame: nat, size: nat, ch: nat, width: nat, channels: nat)
    requires ch < channels && size == channels * width
    ensures frame * size + ch * width + width <= (frame + 1) * size
  {
    assert (ch + 1) * width <= channels * width;
  }

  lemma WholeFrames(length: nat, size: nat, frame: nat)
    requires size > 0 && frame < length / size
    ensures (frame + 1) * size <= length
  {
    assert length / size * size <= length;
    assert (frame + 1) * size <= length / size * size;
  }

  /** Every sample of every whole frame lies within the data. */
  lemma InBounds(length: nat, channels: nat, width: nat, frame: nat, ch: nat)
    requires frame < NumFrames(length, channels, width) && ch < channels
    ensures Offset(channels, width, frame, ch) + width <= length
  {
    SumOfParts(frame, channels * width, ch, width, channels);
    WholeFrames(length, channels * width, frame);
  }

  /** The sample of a channel; by InBounds the data holds it for every channel of every whole frame. */
  function SampleAt(data: seq<byte>, channels: nat, width: nat, float: Float, frame: nat, ch: nat): real {
    var offset := Offset(channels, width, frame, ch);
    if offset + width <= |data| then DecodeSample(data, offset, width, float) else 0.0
  }

  /** The first n samples of one frame, one per channel. */
  function Frame(data: seq<byte>, channels: nat, width: nat, float: Float, frame: nat, n: nat): (r: seq<real>)
    ensures |r| == n && forall ch :: 0 <= ch < n ==> r[ch] == SampleAt(data, channels, width, float, frame, ch)
  {
    seq(n, ch requires 0 <= ch < n => SampleAt(data, channels, width, float, frame, ch))
  }

  function Sum(s: seq<real>): real {
    if s == [] then 0.0 else Sum(s[..|s| - 1]) + s[|s| - 1]
  }

  /** The sum over the channels of one parity. */
  function SumOf(s: seq<real>, parity: nat): real {
    if s == [] then 0.0
    else SumOf(s[..|s| - 1], parity) + if (|s| - 1) % 2 == parity then s[|s| - 1] else 0.0
  }

  /** How many of n channels have the parity. */
  function CountOf(n: nat, parity: nat): nat {
    if n == 0 then 0 else CountOf(n - 1, parity) + if (n - 1) % 2 == parity then 1 else 0
  }

  lemma {:induction false} Counts(n: nat)
    ensures CountOf(n, 0) == (n + 1) / 2 && CountOf(n, 1) == n / 2
  {
    if n > 0 { Counts(n - 1); }
  }

  /** The average of the channels of one parity; a single channel serves for both. */
  function SideOf(s: seq<real>, parity: nat): real {
    if |s| == 1 then s[0]
    else if CountOf(|s|, parity) > 0 then SumOf(s, parity) / CountOf(|s|, parity) as real
    else 0.0
  }

  function MonoOf(s: seq<real>): real {
    if s == [] then 0.0 else Sum(s) / |s| as real
  }

  /** The code's read of a sample, and that it is within the data. */
  method Read(data: seq<byte>, channels: nat, width: nat, float: Float, frame: nat, ch: nat) returns (sample: real)
    requires frame < NumFrames(|data|, channels, width) && ch < channels
    ensures sample == SampleAt(data, channels, width, float, frame, ch)
  {
    InBounds(|data|, channels, width, frame, ch);
    sample := DecodeSample(data, Offset(channels, width, frame, ch), width, float);
  }

  lemma SumSnoc(s: seq<real>, t: seq<real>)
    requires |t| == |s| + 1 && t[..|s|] == s
    ensures Sum(t) == Sum(s) + t[|s|]
    ensures forall parity: nat :: SumOf(t, parity) == SumOf(s, parity) + if |s| % 2 == parity then t[|s|] else 0.0
  {
  }

  lemma FrameSnoc(data: seq<byte>, channels: nat, width: nat, float: Float, frame: nat, n: nat)
    ensures var s := Frame(data, channels, width, float, frame, n);
            var t := Frame(data, channels, width, float, frame, n + 1);
            t[..n] == s && t[n] == SampleAt(data, channels, width, float, frame, n)
  {
  }

  /** More than two channels: the left sample averages the even ones, the right sample the odd ones. */
  method Downmix(data: seq<byte>, channels: nat, width: nat, float: Float, frame: nat) returns (l: real, r: real)
    requires frame < NumFrames(|data|, channels, width)
    ensures channels > 1 ==> l == SideOf(Frame(data, channels, width, float, frame, channels), 0)
    ensures channels > 1 ==> r == SideOf(Frame(data, channels, width, float, frame, channels), 1)
  {
    var leftSum, rightSum := 0.0, 0.0;
    var leftCount, rightCount := 0, 0;
    for ch := 0 to channels
      invariant leftSum == SumOf(Frame(data, channels, width, float, frame, ch), 0)
      invariant rightSum == SumOf(Frame(data, channels, width, float, frame, ch), 1)
      invariant leftCount == CountOf(ch, 0) && rightCount == CountOf(ch, 1)
    {
      var sample := Read(data, channels, width, float, frame, ch);
      FrameSnoc(data, channels, width, float, frame, ch);
      SumSnoc(Frame(data, channels, width, float, frame, ch), Frame(data, channels, width, float, frame, ch + 1));
      if ch % 2 == 0 {
        leftSum := leftSum + sample;
        leftCount := leftCount + 1;
      } else {
        rightSum := rightSum + sample;
        rightCount := rightCount + 1;
      }
    }
    l := if leftCount > 0 then leftSum / leftCount as real else 0.0;
    r := if rightCount > 0 then rightSum / rightCount as real else 0.0;
  }

  /** The three cases of the stereo loop's body. */
  method StereoFrame(data: seq<byte>, channels: nat, width: nat, float: Float, frame: nat) returns (l: real, r: real)
    requires frame < NumFrames(|data|, channels, width)
    ensures l == SideOf(Frame(data, channels, width, float, frame, channels), 0)
    ensures r == SideOf(Frame(data, channels, width, float, frame, channels), 1)
  {
    if channels == 1 {
      l := Read(data, channels, width, float, frame, 0);
      r := l;
    } else if channels == 2 {
      l := Read(data, channels, width, float, frame, 0);
      r := Read(data, channels, width, float, frame, 1);
      TwoSides(Frame(data, channels, width, float, frame, 2));
    } else {
      l, r := Downmix(data, channels, width, float, frame);
    }
  }

  lemma TwoSides(s: seq<real>)
    requires |s| == 2
    ensures SideOf(s, 0) == s[0] && SideOf(s, 1) == s[1]
  {
    assert s[..1][..0] == [];
    SumSnoc([], s[..1]);
    SumSnoc(s[..1], s);
    Counts(2);
  }

  /** interleaved_to_stereo_f32 */
  method InterleavedToStereo(data: seq<byte>, channels: nat, width: nat, float: Float) returns (stereo: seq<real>)
    ensures |stereo| == 2 * NumFrames(|data|, channels, width)
    ensures forall f :: 0 <= f < NumFrames(|data|, channels, width) ==>
              var s := Frame(data, channels, width, float, f, channels);
              stereo[2 * f] == SideOf(s, 0) && stereo[2 * f + 1] == SideOf(s, 1)
  {
    var frameSize := channels * width;
    if frameSize == 0 { return []; }
    var numFrames := |data| / frameSize;
    stereo := [];
    for f := 0 to numFrames
      invariant |stereo| == 2 * f
      invariant forall k :: 0 <= k < f ==>
                  var s := Frame(data, channels, width, float, k, channels);
                  stereo[2 * k] == SideOf(s, 0) && stereo[2 * k + 1] == SideOf(s, 1)
    {
      var l, r := StereoFrame(data, channels, width, float, f);
      stereo := stereo + [l, r];
    }
  }

  method MonoFrame(data: seq<byte>, channels: nat, width: nat, float: Float, frame: nat) returns (mono: real)
    requires frame < NumFrames(|data|, channels, width)
    ensures mono == MonoOf(Frame(data, channels, width, float, frame, channels))
  {
    var sum := 0.0;
    for ch := 0 to channels
      invariant sum == Sum(Frame(data, channels, width, float, frame, ch))
    {
      var sample := Read(data, channels, width, float, frame, ch);
      FrameSnoc(data, channels, width, float, frame, ch);
      SumSnoc(Frame(data, channels, width, float, frame, ch), Frame(data, channels, width, float, frame, ch + 1));
      sum := sum + sample;
    }
    mono := sum / channels as real;
  }

  /** interleaved_to_mono_f32 */
  method InterleavedToMono(data: seq<byte>, channels: nat, width: nat, float: Float) returns (mono: seq<real>)
    ensures |mono| == NumFrames(|data|, channels, width)
    ensures forall f :: 0 <= f < |mono| ==> mono[f] == MonoOf(Frame(data, channels, width, float, f, channels))
  {
    var frameSize := channels * width;
    if frameSize == 0 { return []; }
    var numFrames := |data| / frameSize;
    mono := [];
    for f := 0 to numFrames
      invariant |mono| == f
      invariant forall k :: 0 <= k < f ==> mono[k] == MonoOf(Frame(data, channels, width, float, k, channels))
    {
      var m := MonoFrame(data, channels, width, float, f);
      mono := mono + [m];
    }
  }

  // ---- Mono, left and right ----

  lemma {:induction false} SidesSum(s: seq<real>)
    ensures SumOf(s, 0) + SumOf(s, 1) == Sum(s)
    decreases |s|
  {
    if s != [] { SidesSum(s[..|s| - 1]); }
  }

  lemma TimesCount(sum: real, count: nat)
    requires count > 0
    ensures sum / count as real * count as real == sum
  {
  }

  /** N times the mono sample is the left sample times its number of channels plus the right one times its number. */
  lemma MonoIsWeighted(s: seq<real>)
    requires s != []
    ensures MonoOf(s) * |s| as real == SideOf(s, 0) * ((|s| + 1) / 2) as real + SideOf(s, 1) * (|s| / 2) as real
  {
    Counts(|s|);
    SidesSum(s);
    TimesCount(Sum(s), |s|);
    if |s| == 1 {
      assert s[..0] == [];
    } else {
      TimesCount(SumOf(s, 0), CountOf(|s|, 0));
      TimesCount(SumOf(s, 1), CountOf(|s|, 1));
    }
  }

  ghost predicate InRange(s: seq<real>) { forall i :: 0 <= i < |s| ==> -1.0 <= s[i] < 1.0 }

  lemma {:induction false} SumInRange(s: seq<real>, parity: nat)
    requires InRange(s) && parity < 2
    ensures -(CountOf(|s|, parity) as real) <= SumOf(s, parity) <= CountOf(|s|, parity) as real
    ensures CountOf(|s|, parity) > 0 ==> SumOf(s, parity) < CountOf(|s|, parity) as real
    decreases |s|
  {
    if s != [] { SumInRange(s[..|s| - 1], parity); }
  }

  lemma QuotientInRange(sum: real, n: nat)
    requires n > 0 && -(n as real) <= sum < n as real
    ensures -1.0 <= sum / n as real < 1.0
  {
    var q := sum / n as real;
    TimesCount(sum, n);
    if q < -1.0 { Larger(-1.0, q, n as real); }
    if q >= 1.0 { Larger(q, 1.0, n as real); }
  }

  lemma Larger(a: real, b: real, n: real)
    requires n > 0.0 && b <= a
    ensures b * n <= a * n && (b < a ==> b * n < a * n)
  {
  }

  /** A downmix of samples in [-1, 1) stays in [-1, 1). */
  lemma SidesInRange(s: seq<real>, parity: nat)
    requires InRange(s) && parity < 2 && s != []
    ensures -1.0 <= SideOf(s, parity) < 1.0
  {
    SumInRange(s, parity);
    if CountOf(|s|, parity) > 0 {
      QuotientInRange(SumOf(s, parity), CountOf(|s|, parity));
    }
  }

  lemma SampleInRange(data: seq<byte>, channels: nat, width: nat, float: Float, frame: nat, ch: nat)
    requires width != 4
    ensures -1.0 <= SampleAt(data, channels, width, float, frame, ch) < 1.0
  {
    var offset := Offset(channels, width, frame, ch);
    if offset + width <= |data| && width == 3 {
      Signed24Is(data[offset], data[offset + 1], data[offset + 2]);
    }
  }

  /** So integer PCM of any width and any number of channels gives stereo samples in [-1, 1). */
  lemma StereoInRange(data: seq<byte>, channels: nat, width: nat, float: Float, frame: nat, parity: nat)
    requires channels > 0 && width != 4 && parity < 2
    ensures -1.0 <= SideOf(Frame(data, channels, width, float, frame, channels), parity) < 1.0
  {
    forall ch | 0 <= ch < channels ensures -1.0 <= SampleAt(data, channels, width, float, frame, ch) < 1.0 {
      SampleInRange(data, channels, width, float, frame, ch);
    }
    SidesInRange(Frame(data, channels, width, float, frame, channels), parity);
  }

  // ---- Which bytes a sample is read from ----

  /** Samples of one width, one after the other. */
  function Flat(samples: seq<seq<byte>>): seq<byte> {
    if samples == [] then [] else Flat(samples[..|samples| - 1]) + samples[|samples| - 1]
  }

  ghost predicate Wide(samples: seq<seq<byte>>, width: nat) {
    forall i :: 0 <= i < |samples| ==> |samples[i]| == width
  }

  lemma {:induction false} FlatAt(samples: seq<seq<byte>>, width: nat, i: nat)
    requires Wide(samples, width) && i < |samples|
    ensures |Flat(samples)| == |samples| * width && (i + 1) * width <= |Flat(samples)|
    ensures Flat(samples)[i * width..(i + 1) * width] == samples[i]
    decreases |samples|
  {
    var n := |samples| - 1;
    FlatLength(samples[..n], width);
    assert n * width + width == |samples| * width;
    if i < n {
      FlatAt(samples[..n], width, i);
      assert Flat(samples)[..|Flat(samples[..n])|] == Flat(samples[..n]);
    }
  }

  lemma {:induction false} FlatLength(samples: seq<seq<byte>>, width: nat)
    requires Wide(samples, width)
    ensures |Flat(samples)| == |samples| * width
    decreases |samples|
  {
    if samples != [] {
      FlatLength(samples[..|samples| - 1], width);
      assert (|samples| - 1) * width + width == |samples| * width;
    }
  }

  lemma Place(channels: nat, width: nat, frame: nat, ch: nat)
    ensures Offset(channels, width, frame, ch) == (frame * channels + ch) * width
  {
    assert frame * (channels * width) == frame * channels * width;
    assert (frame * channels + ch) * width == frame * channels * width + ch * width;
  }

  lemma SameByte(a: seq<byte>, i: nat, b: seq<byte>, j: nat, width: nat, k: nat)
    requires i + width <= |a| && j + width <= |b| && a[i..i + width] == b[j..j + width] && k < width
    ensures a[i + k] == b[j + k]
  {
    assert a[i..i + width][k] == b[j..j + width][k];
  }

  lemma SameSample(a: seq<byte>, i: nat, b: seq<byte>, j: nat, width: nat, float: Float)
    requires i + width <= |a| && j + width <= |b| && a[i..i + width] == b[j..j + width]
    ensures DecodeSample(a, i, width, float) == DecodeSample(b, j, width, float)
  {
    if 0 < width { SameByte(a, i, b, j, width, 0); }
    if 1 < width { SameByte(a, i, b, j, width, 1); }
    if 2 < width { SameByte(a, i, b, j, width, 2); }
    if 3 < width { SameByte(a, i, b, j, width, 3); }
  }

  /** The sample of a channel in a frame is the one that stands there: the channels of a frame one after the other, and
      the frames one after the other. */
  lemma InterleavedAt(samples: seq<seq<byte>>, channels: nat, width: nat, float: Float, frame: nat, ch: nat)
    requires Wide(samples, width) && ch < channels && frame * channels + ch < |samples|
    ensures SampleAt(Flat(samples), channels, width, float, frame, ch)
            == DecodeSample(samples[frame * channels + ch], 0, width, float)
  {
    var i := frame * channels + ch;
    FlatAt(samples, width, i);
    Place(channels, width, frame, ch);
    assert (i + 1) * width == i * width + width;
    assert samples[i][0..width] == samples[i];
    SameSample(Flat(samples), i * width, samples[i], 0, width, float);
  }

  /** All frames are taken that are whole. */
  lemma FramesAreAll(length: nat, channels: nat, width: nat)
    requires channels * width > 0
    ensures var n, size := NumFrames(length, channels, width), channels * width;
            n * size <= length < (n + 1) * size
  {
    var size := channels * width;
    assert length == length / size * size + length % size;
  }

  // ---- The sides ----

  /** The channels of one parity, in order. */
  function Every(s: seq<real>, parity: nat): (r: seq<real>)
    requires parity < 2 && |s| >= 1
    ensures |r| == (|s| + 1 - parity) / 2 && forall k :: 0 <= k < |r| ==> r[k] == s[2 * k + parity]
  {
    seq((|s| + 1 - parity) / 2, k requires 0 <= k < (|s| + 1 - parity) / 2 => s[2 * k + parity])
  }

  lemma {:induction false} SumOfEvery(s: seq<real>, parity: nat)
    requires parity < 2 && |s| >= 1
    ensures SumOf(s, parity) == Sum(Every(s, parity))
    decreases |s|
  {
    var n := |s| - 1;
    var init := s[..n];
    if n == 0 {
      assert init == [] && SumOf(init, parity) == 0.0;
      if parity == 0 {
        assert Every(s, 0) == [s[0]] && [s[0]][..0] == [];
      }
    } else {
      SumOfEvery(init, parity);
      if n % 2 == parity {
        assert Every(s, parity)[..|Every(init, parity)|] == Every(init, parity);
      } else {
        assert Every(s, parity) == Every(init, parity);
      }
    }
  }

  /** The left sample is the average of channels 0, 2, 4 and so on, the right one of channels 1, 3, 5 and so on; a
      single channel is both. */
  lemma SideIsAverage(s: seq<real>, parity: nat)
    requires parity < 2 && |s| >= 1
    ensures SideOf(s, parity)
            == if |s| == 1 then s[0] else Sum(Every(s, parity)) / |Every(s, parity)| as real
  {
    Counts(|s|);
    SumOfEvery(s, parity);
  }
}
