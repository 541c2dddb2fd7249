/**
  The few JavaScript string built-ins the chat core relies on, stated over
  `seq<char>`: the white-space class shared by `\s` and `String.prototype.trim`,
  line terminators (what `.` and multiline `^` look at), `includes`,
  `toLowerCase` restricted to the Latin-1 letters, and the decimal rendering of
  a non-negative integer inside a template literal.
 */
module Strings {

  /** White space as ECMAScript defines it for `\s` and `trim`: the WhiteSpace
      and LineTerminator code points of ECMA-262 (sections 12.2 and 12.3). */
  predicate IsSpace(c: char) {
    c == ' ' || c == '\t' || c == '\n' || c == '\U{000B}' || c == '\U{000C}' || c == '\r'
    || c == '\U{00A0}' || c == '\U{1680}' || ('\U{2000}' <= c <= '\U{200A}')
    || c == '\U{2028}' || c == '\U{2029}' || c == '\U{202F}' || c == '\U{205F}'
    || c == '\U{3000}' || c == '\U{FEFF}'
  }

  /** Line terminators: the characters `.` does not match and after which a
      multiline `^` matches. */
  predicate IsLineTerminator(c: char)
    ensures IsLineTerminator(c) ==> IsSpace(c)
  {
    c == '\n' || c == '\r' || c == '\U{2028}' || c == '\U{2029}'
  }

  predicate AllSpace(s: string) {
    forall k :: 0 <= k < |s| ==> IsSpace(s[k])
  }

  predicate NoLineTerminator(s: string) {
    forall k :: 0 <= k < |s| ==> !IsLineTerminator(s[k])
  }

  predicate NoSpace(s: string) {
    forall k :: 0 <= k < |s| ==> !IsSpace(s[k])
  }

  predicate Excludes(s: string, c: char) {
    forall k :: 0 <= k < |s| ==> s[k] != c
  }

  predicate StartsWith(s: string, prefix: string) {
    prefix <= s
  }

  /** Length of the longest prefix of `s` made of white space. */
  function SpaceRun(s: string): (n: nat)
    ensures n <= |s|
    ensures AllSpace(s[..n])
    ensures n < |s| ==> !IsSpace(s[n])
  {
    if s != [] && IsSpace(s[0]) then 1 + SpaceRun(s[1..]) else 0
  }

  /** `s.trimStart()`: drops the leading white space and nothing else. */
  function TrimStart(s: string): (r: string)
    ensures |r| <= |s| && r == s[|s| - |r|..]
    ensures AllSpace(s[..|s| - |r|])
    ensures r == [] || !IsSpace(r[0])
  {
    s[SpaceRun(s)..]
  }

  /** `s.trimEnd()`: drops the trailing white space and nothing else. */
  function TrimEnd(s: string): (r: string)
    ensures |r| <= |s| && r == s[..|r|]
    ensures AllSpace(s[|r|..])
    ensures r == [] || !IsSpace(r[|r| - 1])
  {
    if s != [] && IsSpace(s[|s| - 1]) then TrimEnd(s[..|s| - 1]) else s
  }

  /** `s.trim()`: the part of `s` between its leading and trailing white space. */
  function Trim(s: string): (r: string)
    ensures r == [] || (!IsSpace(r[0]) && !IsSpace(r[|r| - 1]))
  {
    TrimEnd(TrimStart(s))
  }

  /** `trim` keeps a contiguous slice of its input and drops only white space
      on either side of it. */
  lemma {:induction false} TrimIsSlice(s: string) returns (i: nat, j: nat)
    ensures i <= j <= |s| && Trim(s) == s[i..j]
    ensures AllSpace(s[..i]) && AllSpace(s[j..])
  {
    var a := TrimStart(s);
    i := |s| - |a|;
    j := i + |TrimEnd(a)|;
    assert s[j..] == a[|TrimEnd(a)|..];
  }

  /** Trimming twice is trimming once. */
  lemma {:induction false} TrimIdempotent(s: string)
    ensures Trim(Trim(s)) == Trim(s)
  {
    var t := Trim(s);
    if t != [] {
      assert SpaceRun(t) == 0;
      assert TrimStart(t) == t;
    }
  }

  /** `s.includes(sub)`. */
  function Contains(s: string, sub: string): (b: bool)
    ensures StartsWith(s, sub) ==> b
    ensures b ==> |sub| <= |s|
    decreases |s|
  {
    StartsWith(s, sub) || (s != [] && Contains(s[1..], sub))
  }

  predicate OccursAt(s: string, sub: string, i: int) {
    0 <= i && i + |sub| <= |s| && s[i..i + |sub|] == sub
  }

  /** `includes` holds exactly when `sub` occurs at some index of `s`. */
  lemma {:induction false} ContainsIffOccurs(s: string, sub: string)
    ensures Contains(s, sub) <==> exists i :: OccursAt(s, sub, i)
    decreases |s|
  {
    if StartsWith(s, sub) {
      assert OccursAt(s, sub, 0);
    } else if s != [] {
      ContainsIffOccurs(s[1..], sub);
      if exists i :: OccursAt(s, sub, i) {
        var i :| OccursAt(s, sub, i);
        assert i != 0;
        assert OccursAt(s[1..], sub, i - 1);
      }
      if exists i :: OccursAt(s[1..], sub, i) {
        var i :| OccursAt(s[1..], sub, i);
        assert OccursAt(s, sub, i + 1);
      }
    }
  }

  /** Any string contains itself surrounded by anything. */
  lemma {:induction false} ContainsInfix(a: string, sub: string, b: string)
    ensures Contains(a + sub + b, sub)
  {
    assert OccursAt(a + sub + b, sub, |a|);
    ContainsIffOccurs(a + sub + b, sub);
  }

  /** `toLowerCase` on one character, for the ASCII and Latin-1 capitals
      (U+00C0 to U+00DE except the multiplication sign U+00D7), which map to
      the code point 32 above; every other character is left as it is. */
  function LowerChar(c: char): (l: char)
    ensures !('A' <= l <= 'Z')
    ensures IsSpace(l) <==> IsSpace(c)
  {
    if 'A' <= c <= 'Z' || ('\U{00C0}' <= c <= '\U{00DE}' && c != '\U{00D7}')
    then (c as int + 32) as char
    else c
  }

  /** `s.toLowerCase()`, character by character. */
  function ToLower(s: string): (r: string)
    ensures |r| == |s|
    ensures forall k :: 0 <= k < |s| ==> r[k] == LowerChar(s[k])
  {
    seq(|s|, k requires 0 <= k < |s| => LowerChar(s[k]))
  }

  /** Lower-casing is idempotent: a lower-cased text has no capital left. */
  lemma {:induction false} ToLowerIdempotent(s: string)
    ensures ToLower(ToLower(s)) == ToLower(s)
  {
    forall k | 0 <= k < |s|
      ensures LowerChar(LowerChar(s[k])) == LowerChar(s[k])
    {
      var c := s[k];
      if '\U{00C0}' <= c <= '\U{00DE}' && c != '\U{00D7}' {
        assert '\U{00E0}' <= LowerChar(c) <= '\U{00FE}';
      }
    }
  }

  function DigitChar(d: nat): (c: char)
    requires d < 10
    ensures '0' <= c <= '9'
  {
    ('0' as int + d) as char
  }

  /** The decimal text a template literal gives a non-negative integer. */
  function NatToString(n: nat): (r: string)
    ensures r != []
    ensures forall k :: 0 <= k < |r| ==> '0' <= r[k] <= '9'
    ensures r[0] == '0' ==> n == 0
  {
    if n < 10 then [DigitChar(n)] else NatToString(n / 10) + [DigitChar(n % 10)]
  }

  /** The number a string of decimal digits denotes. */
  function DigitsValue(s: string): nat
    requires forall k :: 0 <= k < |s| ==> '0' <= s[k] <= '9'
  {
    if s == [] then 0
    else 10 * DigitsValue(s[..|s| - 1]) + (s[|s| - 1] as int - '0' as int)
  }

  /** Reading back the digits of `NatToString(n)` gives `n`. */
  lemma {:induction false} NatToStringRoundTrip(n: nat)
    ensures DigitsValue(NatToString(n)) == n
  {
    if n >= 10 {
      var r := NatToString(n);
      assert r[..|r| - 1] == NatToString(n / 10);
      NatToStringRoundTrip(n / 10);
    }
  }
}
