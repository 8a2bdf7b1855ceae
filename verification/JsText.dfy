/** Characters as JavaScript's trim() and regular expressions see them. */
module JsText {
  const Upper := "ABCDEFGHIJKLMNOPQRSTUVWXYZ"
  const Lower := "abcdefghijklmnopqrstuvwxyz"
  const Digits := "0123456789"

  lemma UpperIff(c: char)
    ensures 'A' <= c <= 'Z' <==> c in Upper
  {
  }

  lemma LowerIff(c: char)
    ensures 'a' <= c <= 'z' <==> c in Lower
  {
  }

  lemma DecimalIff(c: char)
    ensures '0' <= c <= '9' <==> c in Digits
  {
  }

  /** `\s`, which is also what trim() removes. */
  predicate IsSpace(c: char) {
    c in " \t\n\r" || c == '\U{0B}' || c == '\U{0C}' || c == '\U{A0}' || c == '\U{1680}'
    || '\U{2000}' <= c <= '\U{200A}' || c == '\U{2028}' || c == '\U{2029}' || c == '\U{202F}'
    || c == '\U{205F}' || c == '\U{3000}' || c == '\U{FEFF}'
  }

  /** The 25 characters that ECMAScript counts as white space or line terminators, by code point. */
  lemma IsSpaceIff(c: char)
    ensures IsSpace(c) <==>
            c as int in {9, 10, 11, 12, 13, 32, 160, 5760, 8192, 8193, 8194, 8195, 8196, 8197, 8198, 8199, 8200, 8201,
                         8202, 8232, 8233, 8239, 8287, 12288, 65279}
  {
  }

  /** What `.` matches without the s flag: anything but a line terminator. */
  predicate IsDot(c: char) {
    c != '\n' && c != '\r' && c != '\U{2028}' && c != '\U{2029}'
  }

  function SkipSpaces(s: string): (r: string)
    ensures |r| <= |s| && (r != "" ==> !IsSpace(r[0]))
  {
    if s != "" && IsSpace(s[0]) then SkipSpaces(s[1..]) else s
  }

  function TrimEnd(s: string): (r: string)
    ensures r <= s && (r != "" ==> !IsSpace(r[|r| - 1]))
  {
    if s != "" && IsSpace(s[|s| - 1]) then TrimEnd(s[..|s| - 1]) else s
  }

  /** `s.trim()` */
  function Trim(s: string): string {
    TrimEnd(SkipSpaces(s))
  }

  lemma {:induction false} SkipIs(s: string)
    ensures var n := |s| - |SkipSpaces(s)|; SkipSpaces(s) == s[n..] && forall i :: 0 <= i < n ==> IsSpace(s[i])
    decreases |s|
  {
    if s != "" && IsSpace(s[0]) { SkipIs(s[1..]); }
  }

  lemma {:induction false} TrimEndIs(s: string)
    ensures forall i :: |TrimEnd(s)| <= i < |s| ==> IsSpace(s[i])
    decreases |s|
  {
    if s != "" && IsSpace(s[|s| - 1]) { TrimEndIs(s[..|s| - 1]); }
  }

  predicate White(s: string) { forall i :: 0 <= i < |s| ==> IsSpace(s[i]) }

  /** Trimming takes white space off both ends, and all of it. */
  lemma TrimIs(s: string)
    ensures exists a, b :: s == a + Trim(s) + b && White(a) && White(b)
    ensures Trim(s) != "" ==> !IsSpace(Trim(s)[0]) && !IsSpace(Trim(s)[|Trim(s)| - 1])
  {
    SkipIs(s);
    var m := SkipSpaces(s);
    var a := s[..|s| - |m|];
    TrimEndIs(m);
    var b := m[|Trim(s)|..];
    assert m == Trim(s) + b;
    assert s == a + Trim(s) + b && White(a) && White(b);
  }

  /** A string that neither starts nor ends with white space is its own trim. */
  lemma TrimSame(s: string)
    requires s != "" ==> !IsSpace(s[0]) && !IsSpace(s[|s| - 1])
    ensures Trim(s) == s
  {
  }
}
