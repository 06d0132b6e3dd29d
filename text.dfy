/**
 * The string primitives of the JavaScript runtime that the screens and services rely on:
 * `String.prototype.trim`, `toLowerCase` on ASCII letters, and the decimal rendering of an
 * integer inside a template literal.
 */
module Text {
  import opened Wrappers

  /** The WhiteSpace and LineTerminator code points that `String.prototype.trim` removes. */
  predicate IsJsSpace(c: char) {
    || c == '\t' || c == '\n' || c == '\U{000B}' || c == '\U{000C}' || c == '\r' || c == ' '
    || c == '\U{00A0}' || c == '\U{1680}' || ('\U{2000}' <= c <= '\U{200A}')
    || c == '\U{2028}' || c == '\U{2029}' || c == '\U{202F}' || c == '\U{205F}'
    || c == '\U{3000}' || c == '\U{FEFF}'
  }

  predicate AllSpace(s: string) {
    forall i :: 0 <= i < |s| ==> IsJsSpace(s[i])
  }

  /** No white space at either end. */
  predicate IsTrimmed(s: string) {
    s == [] || (!IsJsSpace(s[0]) && !IsJsSpace(s[|s| - 1]))
  }

  /** Drops the leading white space. */
  function TrimStart(s: string): string {
    if s != [] && IsJsSpace(s[0]) then TrimStart(s[1..]) else s
  }

  /** Drops the trailing white space. */
  function TrimEnd(s: string): string {
    if s != [] && IsJsSpace(s[|s| - 1]) then TrimEnd(s[..|s| - 1]) else s
  }

  /** What `TrimStart` keeps is a suffix of its input starting at a non-space; what it drops is white space. */
  lemma {:induction false} TrimStartSpec(s: string)
    ensures |TrimStart(s)| <= |s| && TrimStart(s) == s[|s| - |TrimStart(s)|..]
    ensures TrimStart(s) == [] || !IsJsSpace(TrimStart(s)[0])
    ensures AllSpace(s[..|s| - |TrimStart(s)|])
  {
    if s != [] && IsJsSpace(s[0]) {
      TrimStartSpec(s[1..]);
      var k := |s| - |TrimStart(s)|;
      assert s[1..][..k - 1] == s[1..k];
    }
  }

  /** What `TrimEnd` keeps is a prefix of its input ending at a non-space; what it drops is white space. */
  lemma {:induction false} TrimEndSpec(s: string)
    ensures |TrimEnd(s)| <= |s| && TrimEnd(s) == s[..|TrimEnd(s)|]
    ensures TrimEnd(s) == [] || !IsJsSpace(TrimEnd(s)[|TrimEnd(s)| - 1])
    ensures AllSpace(s[|TrimEnd(s)|..])
  {
    if s != [] && IsJsSpace(s[|s| - 1]) {
      TrimEndSpec(s[..|s| - 1]);
      var k := |TrimEnd(s)|;
      assert s[..|s| - 1][k..] + [s[|s| - 1]] == s[k..];
    }
  }

  /** `String.prototype.trim`. */
  function Trim(s: string): string {
    TrimEnd(TrimStart(s))
  }

  /** Trimming leaves a slice of the input with no white space at either end, and removes only white space. */
  lemma TrimIsTrimmedSlice(s: string)
    ensures IsTrimmed(Trim(s))
    ensures exists i :: (0 <= i <= |s| - |Trim(s)| && Trim(s) == s[i..i + |Trim(s)|]
                         && AllSpace(s[..i]) && AllSpace(s[i + |Trim(s)|..]))
  {
    var t := TrimStart(s);
    TrimStartSpec(s);
    var i := |s| - |t|;
    var r := TrimEnd(t);
    TrimEndSpec(t);
    assert r == s[i..i + |r|];
    assert s[i + |r|..] == t[|r|..];
    if r != [] {
      assert r[0] == t[0];
    }
  }

  /** The trimmed string is empty exactly when the input is all white space. */
  lemma {:induction false} TrimEmptyIff(s: string)
    ensures Trim(s) == [] <==> AllSpace(s)
  {
    var t := TrimStart(s);
    TrimStartSpec(s);
    TrimEndSpec(t);
    if !AllSpace(s) {
      var k :| 0 <= k < |s| && !IsJsSpace(s[k]);
      assert t[k - (|s| - |t|)] == s[k];
    }
  }

  /** A string with no white space at either end is its own trim. */
  lemma TrimOfTrimmed(s: string)
    requires IsTrimmed(s)
    ensures Trim(s) == s
  {
  }

  /** One trailing space after an unpadded, non-empty string is all that trimming removes. */
  lemma TrimDropsTrailingSpace(t: string)
    requires t != [] && IsTrimmed(t)
    ensures Trim(t + " ") == t
  {
    var u := t + " ";
    assert u[0] == t[0];
    assert TrimStart(u) == u;
    assert IsJsSpace(u[|u| - 1]);
    assert u[..|u| - 1] == t;
    assert TrimEnd(u) == TrimEnd(t) == t;
  }

  /** Trimming is idempotent. */
  lemma TrimIdempotent(s: string)
    ensures Trim(Trim(s)) == Trim(s)
  {
    TrimIsTrimmedSlice(s);
    TrimOfTrimmed(Trim(s));
  }

  /** `toLowerCase` on one character; only the ASCII letters are modelled. */
  function LowerChar(c: char): (d: char)
    ensures ('A' <= c <= 'Z') ==> 'a' <= d <= 'z' && d as int - c as int == 32
    ensures !('A' <= c <= 'Z') ==> d == c
  {
    if 'A' <= c <= 'Z' then (c as int + 32) as char else c
  }

  /** `String.prototype.toLowerCase` over ASCII: the same length, each character lowered in place. */
  function Lower(s: string): string {
    seq(|s|, i requires 0 <= i < |s| => LowerChar(s[i]))
  }

  predicate HasNoUpper(s: string) {
    forall i :: 0 <= i < |s| ==> !('A' <= s[i] <= 'Z')
  }

  /** Lowering leaves a string without upper-case letters as it is, and produces such a string. */
  lemma LowerFixesLowercase(s: string)
    ensures HasNoUpper(Lower(s))
    ensures HasNoUpper(s) ==> Lower(s) == s
  {
  }

  /** Lowering is idempotent, so comparing lowered strings is an equivalence on emails. */
  lemma LowerIdempotent(s: string)
    ensures Lower(Lower(s)) == Lower(s)
  {
    LowerFixesLowercase(s);
    LowerFixesLowercase(Lower(s));
  }

  predicate IsDigit(c: char) {
    '0' <= c <= '9'
  }

  predicate AllDigits(s: string) {
    forall i :: 0 <= i < |s| ==> IsDigit(s[i])
  }

  function DigitChar(d: nat): (c: char)
    requires d < 10
    ensures IsDigit(c) && c as int - '0' as int == d
  {
    ('0' as int + d) as char
  }

  /** The decimal digits of `n`, most significant first, without leading zeros. */
  function NatToDecimal(n: nat): (r: string)
    ensures |r| >= 1 && AllDigits(r)
    ensures |r| > 1 ==> r[0] != '0'
  {
    if n < 10 then [DigitChar(n)] else NatToDecimal(n / 10) + [DigitChar(n % 10)]
  }

  /** How an integer appears inside a template literal: a minus sign for negatives, then its digits. */
  function IntToDecimal(n: int): string {
    if n < 0 then "-" + NatToDecimal(-n) else NatToDecimal(n)
  }

  /** The value of a string of decimal digits. */
  function DecimalValue(s: string): nat
    requires AllDigits(s)
  {
    if s == [] then 0 else 10 * DecimalValue(s[..|s| - 1]) + (s[|s| - 1] as int - '0' as int)
  }

  /** Reads back an optionally negative decimal integer. */
  function ParseInt(s: string): Option<int> {
    if |s| > 1 && s[0] == '-' && AllDigits(s[1..]) then Some(-(DecimalValue(s[1..]) as int))
    else if |s| > 0 && AllDigits(s) then Some(DecimalValue(s))
    else None
  }

  lemma {:induction false} NatToDecimalRoundTrip(n: nat)
    ensures DecimalValue(NatToDecimal(n)) == n
  {
    if n >= 10 {
      NatToDecimalRoundTrip(n / 10);
      var r := NatToDecimal(n);
      assert r[..|r| - 1] == NatToDecimal(n / 10);
    }
  }

  /** Rendering an integer in decimal loses nothing: parsing the text gives the integer back. */
  lemma IntToDecimalRoundTrip(n: int)
    ensures ParseInt(IntToDecimal(n)) == Some(n)
  {
    if n < 0 {
      NatToDecimalRoundTrip(-n);
      var r := IntToDecimal(n);
      assert r[1..] == NatToDecimal(-n);
    } else {
      NatToDecimalRoundTrip(n);
    }
  }
}
