/** client/src/lib/portableLinks.ts */
module PortableLinks {
  import opened Options
  import opened JsText
  import opened Numbers
  import Utf8
  import Base64Url

  const InvitePrefix: string := "paracord://invite/"

  datatype Link = Link(serverUrl: string, inviteCode: string)

  datatype LinkError = InvalidCharacter | MissingSeparator

  /** encodePortableLink */
  function Encode(serverUrl: string, inviteCode: string): string {
    Base64Url.Encode(Utf8.Encode(serverUrl + "|" + inviteCode))
  }

  /** toPortableUri */
  function ToUri(serverUrl: string, inviteCode: string): string {
    InvitePrefix + Encode(serverUrl, inviteCode)
  }

  /** `s.lastIndexOf('|')` */
  function LastSeparator(s: string): (r: Option<nat>)
    ensures r.Some? ==> r.value < |s| && s[r.value] == '|' && forall k :: r.value < k < |s| ==> s[k] != '|'
    ensures r.None? ==> '|' !in s
  {
    if s == "" then None
    else if s[|s| - 1] == '|' then Some(|s| - 1)
    else LastSeparator(s[..|s| - 1])
  }

  /** decodePortableLink, after the decoding. */
  function Split(decoded: string): Result<Link, LinkError> {
    match LastSeparator(decoded)
    case None => Failure(MissingSeparator)
    case Some(i) => Success(Link(decoded[..i], decoded[i + 1..]))
  }

  function Cleaned(token: string): string {
    if InvitePrefix <= token then token[|InvitePrefix|..] else token
  }

  function Decode(token: string): Result<Link, LinkError> {
    match Base64Url.Decode(Cleaned(token))
    case None => Failure(InvalidCharacter)
    case Some(bytes) => Split(Utf8.Decode(bytes))
  }

  /** isPortableLink */
  predicate IsPortable(input: string) {
    var t := Trim(input);
    || InvitePrefix <= t
    || (8 <= |t| && (forall i :: 0 <= i < |t| ==> Base64Url.IsUrlDigit(t[i]))
        && match Decode(t)
           case Failure(_) => false
           case Success(link) => link.serverUrl != "" && link.inviteCode != "")
  }

  // ---- The loops of base64urlDecode ----

  method PadLoop(input: string) returns (b64: string)
    ensures b64 == Base64Url.Pad(input)
  {
    b64 := input;
    while |b64| % 4 != 0
      invariant Base64Url.Pad(b64) == Base64Url.Pad(input)
      decreases (4 - |b64| % 4) % 4
    {
      b64 := b64 + "=";
    }
  }

  /** `bytes[i] = binary.charCodeAt(i)` */
  method CopyBytes(binary: seq<byte>) returns (bytes: array<byte>)
    ensures fresh(bytes) && bytes[..] == binary
  {
    bytes := new byte[|binary|];
    for i := 0 to |binary|
      invariant bytes[..i] == binary[..i]
    {
      bytes[i] := binary[i];
    }
    assert bytes[..] == binary;
  }

  method DecodeText(input: string) returns (r: Option<string>)
    ensures r == match Base64Url.Decode(input) case None => None case Some(bytes) => Some(Utf8.Decode(bytes))
  {
    var b64 := PadLoop(Base64Url.FromUrl(input));
    var binary := Base64Url.Atob(b64);
    if binary.None? { return None; }
    var bytes := CopyBytes(binary.value);
    return Some(Utf8.Decode(bytes[..]));
  }

  method DecodePortableLink(token: string) returns (r: Result<Link, LinkError>)
    ensures r == Decode(token)
  {
    var decoded := DecodeText(Cleaned(token));
    match decoded
    case None => r := Failure(InvalidCharacter);
    case Some(text) => r := Split(text);
  }

  // ---- The token and the link ----

  lemma NeverPrefixed(serverUrl: string, inviteCode: string)
    ensures !(InvitePrefix <= Encode(serverUrl, inviteCode))
  {
    Base64Url.EncodeShape(Utf8.Encode(serverUrl + "|" + inviteCode));
    assert InvitePrefix[8] == ':';
  }

  function WithoutMark(s: string): string {
    if s != "" && s[0] == Utf8.ByteOrderMark then s[1..] else s
  }

  /** What decoding an encoded link sees. */
  lemma Decoded(serverUrl: string, inviteCode: string)
    ensures Decode(Encode(serverUrl, inviteCode)) == Split(WithoutMark(serverUrl + "|" + inviteCode))
  {
    var payload := serverUrl + "|" + inviteCode;
    NeverPrefixed(serverUrl, inviteCode);
    Base64Url.RoundTrip(Utf8.Encode(payload));
    Utf8.DecodeEncode(payload);
  }

  lemma LastIs(s: string, i: nat)
    requires i < |s| && s[i] == '|' && forall k :: i < k < |s| ==> s[k] != '|'
    ensures LastSeparator(s) == Some(i)
  {
  }

  lemma SplitIff(serverUrl: string, inviteCode: string)
    ensures Split(serverUrl + "|" + inviteCode) == Success(Link(serverUrl, inviteCode)) <==> '|' !in inviteCode
  {
    var s := serverUrl + "|" + inviteCode;
    assert s[|serverUrl| + 1..] == inviteCode && s[..|serverUrl|] == serverUrl;
    if '|' !in inviteCode {
      LastIs(s, |serverUrl|);
    }
  }

  /** A link survives encoding and decoding iff its invite code has no separator and its server URL does not start with
      a byte order mark, which the decoder drops. */
  lemma RoundTripIff(serverUrl: string, inviteCode: string)
    ensures Decode(Encode(serverUrl, inviteCode)) == Success(Link(serverUrl, inviteCode))
            <==> '|' !in inviteCode && !(serverUrl != "" && serverUrl[0] == Utf8.ByteOrderMark)
  {
    Decoded(serverUrl, inviteCode);
    if serverUrl != "" && serverUrl[0] == Utf8.ByteOrderMark {
      MarkedDiffers(serverUrl, inviteCode);
    } else {
      UnmarkedSame(serverUrl, inviteCode);
      SplitIff(serverUrl, inviteCode);
    }
  }

  lemma MarkedDiffers(serverUrl: string, inviteCode: string)
    requires serverUrl != "" && serverUrl[0] == Utf8.ByteOrderMark
    ensures Split(WithoutMark(serverUrl + "|" + inviteCode)) != Success(Link(serverUrl, inviteCode))
  {
    SplitLength(WithoutMark(serverUrl + "|" + inviteCode));
  }

  lemma UnmarkedSame(serverUrl: string, inviteCode: string)
    requires !(serverUrl != "" && serverUrl[0] == Utf8.ByteOrderMark)
    ensures WithoutMark(serverUrl + "|" + inviteCode) == serverUrl + "|" + inviteCode
  {
    assert (serverUrl + "|" + inviteCode)[0] == if serverUrl == "" then '|' else serverUrl[0];
  }

  lemma SplitLength(s: string)
    ensures Split(s).Success? ==> |Split(s).value.serverUrl| + 1 + |Split(s).value.inviteCode| == |s|
  {
  }

  /** The URI form means the same link. */
  lemma UriMeansTheSame(serverUrl: string, inviteCode: string)
    ensures Decode(ToUri(serverUrl, inviteCode)) == Decode(Encode(serverUrl, inviteCode))
  {
    NeverPrefixed(serverUrl, inviteCode);
    assert ToUri(serverUrl, inviteCode)[|InvitePrefix|..] == Encode(serverUrl, inviteCode);
  }

  /** A URI is always recognised. */
  lemma UriIsPortable(serverUrl: string, inviteCode: string)
    ensures IsPortable(ToUri(serverUrl, inviteCode))
  {
    var uri := ToUri(serverUrl, inviteCode);
    Base64Url.EncodeShape(Utf8.Encode(serverUrl + "|" + inviteCode));
    assert uri[0] == 'p' && (uri[|uri| - 1] == '/' || Base64Url.IsUrlDigit(uri[|uri| - 1]));
    TrimSame(uri);
  }

  /** A bare token of a link that survives is recognised iff both parts are there and the link has six bytes or more:
      eight characters is the least the test accepts. */
  lemma TokenIsPortableIff(serverUrl: string, inviteCode: string)
    requires '|' !in inviteCode && !(serverUrl != "" && serverUrl[0] == Utf8.ByteOrderMark)
    ensures IsPortable(Encode(serverUrl, inviteCode)) <==>
            serverUrl != "" && inviteCode != "" && 6 <= |Utf8.Encode(serverUrl + "|" + inviteCode)|
  {
    var token := Encode(serverUrl, inviteCode);
    Base64Url.EncodeShape(Utf8.Encode(serverUrl + "|" + inviteCode));
    TrimSame(token);
    NeverPrefixed(serverUrl, inviteCode);
    RoundTripIff(serverUrl, inviteCode);
  }

  // ---- Any input ----

  /** The text that a token stands for, if its characters are Base64. */
  function TextOf(token: string): Option<string> {
    match Base64Url.Decode(token)
    case None => None
    case Some(bytes) => Some(Utf8.Decode(bytes))
  }

  lemma SplitMeans(s: string, serverUrl: string, inviteCode: string)
    ensures Split(s) == Success(Link(serverUrl, inviteCode))
            <==> s == serverUrl + "|" + inviteCode && '|' !in inviteCode
    ensures Split(s) == Failure(MissingSeparator) <==> '|' !in s
    ensures Split(s) != Failure(InvalidCharacter)
  {
    if Split(s).Success? {
      var i := LastSeparator(s).value;
      assert s == s[..i] + "|" + s[i + 1..];
      assert '|' !in s[i + 1..];
    }
    if s == serverUrl + "|" + inviteCode { SplitIff(serverUrl, inviteCode); }
  }

  /** A link is decoded from exactly the tokens, with the prefix or without, whose text is its URL and its code around
      the last separator; the errors are those of the two other cases. */
  lemma DecodeMeans(token: string, serverUrl: string, inviteCode: string)
    ensures var text := TextOf(if "paracord://invite/" <= token then token[18..] else token);
            && (Decode(token) == Failure(InvalidCharacter) <==> text.None?)
            && (Decode(token) == Failure(MissingSeparator) <==> text.Some? && '|' !in text.value)
            && (Decode(token) == Success(Link(serverUrl, inviteCode))
                <==> text == Some(serverUrl + "|" + inviteCode) && '|' !in inviteCode)
  {
    var text := TextOf(Cleaned(token));
    assert Cleaned(token) == if "paracord://invite/" <= token then token[18..] else token;
    if text.Some? { SplitMeans(text.value, serverUrl, inviteCode); }
  }

  lemma PrefixIsNoToken(t: string)
    requires Base64Url.IsToken(t)
    ensures !("paracord://invite/" <= t)
  {
    assert "paracord://invite/"[8] == ':';
  }

  /** A text of the Base64 alphabet stands for a link with both parts. */
  ghost predicate Names(t: string) {
    exists serverUrl, inviteCode ::
      serverUrl != "" && inviteCode != "" && '|' !in inviteCode && TextOf(t) == Some(serverUrl + "|" + inviteCode)
  }

  predicate HasBoth(r: Result<Link, LinkError>) {
    match r
    case Failure(_) => false
    case Success(link) => link.serverUrl != "" && link.inviteCode != ""
  }

  lemma TokenMeans(t: string, serverUrl: string, inviteCode: string)
    requires Base64Url.IsToken(t)
    ensures Decode(t) == Success(Link(serverUrl, inviteCode))
            <==> TextOf(t) == Some(serverUrl + "|" + inviteCode) && '|' !in inviteCode
  {
    PrefixIsNoToken(t);
    DecodeMeans(t, serverUrl, inviteCode);
  }

  lemma NamesIff(t: string)
    requires Base64Url.IsToken(t)
    ensures Names(t) <==> HasBoth(Decode(t))
  {
    if HasBoth(Decode(t)) {
      TokenMeans(t, Decode(t).value.serverUrl, Decode(t).value.inviteCode);
    }
    if Names(t) {
      var u, c :| u != "" && c != "" && '|' !in c && TextOf(t) == Some(u + "|" + c);
      TokenMeans(t, u, c);
    }
  }

  /** An input is recognised iff, without white space around it, it has the prefix, or has eight characters or more of
      the URL alphabet that stand for a link with both parts: so no token that cannot be decoded is. */
  lemma PortableIff(input: string)
    ensures var t := Trim(input);
            IsPortable(input) <==> "paracord://invite/" <= t || (8 <= |t| && Base64Url.IsToken(t) && Names(t))
  {
    var t := Trim(input);
    if Base64Url.IsToken(t) { NamesIff(t); }
  }
}
