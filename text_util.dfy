/**
 * The few .NET string operations the repair tools rely on: decimal rendering of
 * an `int` (string interpolation), `String.Replace` and `String.Trim`.
 */
module TextUtil {

  import opened Wrappers

  predicate IsDigit(c: char) {
    '0' <= c <= '9'
  }

  function DigitChar(d: nat): (c: char)
    requires d < 10
    ensures IsDigit(c) && DigitValue(c) == d
  {
    ('0' as int + d) as char
  }

  function DigitValue(c: char): (d: nat)
    requires IsDigit(c)
    ensures d < 10
  {
    c as int - '0' as int
  }

  /** The decimal digits of `n`, most significant first, without leading zeros. */
  function NatToString(n: nat): (s: string)
    ensures 1 <= |s|
    ensures forall i :: 0 <= i < |s| ==> IsDigit(s[i])
    ensures |s| > 1 ==> s[0] != '0'
    decreases n
  {
    if n < 10 then [DigitChar(n)] else NatToString(n / 10) + [DigitChar(n % 10)]
  }

  /** The number a string of decimal digits denotes. */
  function DigitsValue(s: string): nat
    requires forall i :: 0 <= i < |s| ==> IsDigit(s[i])
  {
    if s == [] then 0 else DigitsValue(s[..|s| - 1]) * 10 + DigitValue(s[|s| - 1])
  }

  lemma {:induction false} NatToStringRoundTrip(n: nat)
    ensures DigitsValue(NatToString(n)) == n
    decreases n
  {
    if n >= 10 {
      var s := NatToString(n);
      assert s[..|s| - 1] == NatToString(n / 10);
      NatToStringRoundTrip(n / 10);
    }
  }

  /** `int.ToString()`: a minus sign for negative values, then the digits. */
  function IntToString(i: int): string
  {
    if i < 0 then "-" + NatToString(-i) else NatToString(i)
  }

  predicate AllDigits(s: string) {
    forall i :: 0 <= i < |s| ==> IsDigit(s[i])
  }

  /** Reads back what `IntToString` writes. */
  function ParseInt(s: string): Option<int>
  {
    if s == [] then None
    else if s[0] == '-' then
      if |s| > 1 && AllDigits(s[1..]) then Some(0 - DigitsValue(s[1..])) else None
    else if AllDigits(s) then Some(DigitsValue(s) as int) else None
  }

  lemma {:induction false} IntToStringRoundTrip(i: int)
    ensures ParseInt(IntToString(i)) == Some(i)
  {
    var s := IntToString(i);
    if i < 0 {
      var digits := NatToString(-i);
      NatToStringRoundTrip(-i);
      assert s == "-" + digits;
      assert s[0] == '-' && |s| > 1;
      assert s[1..] == digits;
      assert AllDigits(digits);
      assert ParseInt(s) == Some(0 - DigitsValue(digits));
    } else {
      var digits := NatToString(i);
      NatToStringRoundTrip(i);
      assert s == digits;
      assert s[0] != '-' by { assert IsDigit(s[0]); }
      assert AllDigits(s);
      assert ParseInt(s) == Some(DigitsValue(digits) as int);
    }
  }

  /**
   * `s.Replace(src, rep)`: every occurrence of `src`, scanned left to right
   * without overlaps, replaced by `rep`. .NET throws on an empty `src`.
   */
  function ReplaceAll(s: string, src: string, rep: string): string
    requires |src| > 0
    decreases |s|
  {
    if |s| < |src| then s
    else if s[..|src|] == src then rep + ReplaceAll(s[|src|..], src, rep)
    else [s[0]] + ReplaceAll(s[1..], src, rep)
  }

  predicate OccursAt(s: string, src: string, i: int) {
    0 <= i <= |s| - |src| && s[i..i + |src|] == src
  }

  ghost predicate Occurs(s: string, src: string) {
    exists i :: OccursAt(s, src, i)
  }

  lemma {:induction false} ReplaceAllAbsent(s: string, src: string, rep: string)
    requires |src| > 0 && !Occurs(s, src)
    ensures ReplaceAll(s, src, rep) == s
    decreases |s|
  {
    if |s| >= |src| {
      assert !OccursAt(s, src, 0);
      assert s[..|src|] != src by { assert s[0..|src|] == s[..|src|]; }
      assert !Occurs(s[1..], src) by {
        forall i | 0 <= i <= |s| - 1 - |src|
          ensures !OccursAt(s[1..], src, i)
        {
          assert !OccursAt(s, src, i + 1);
          assert s[1..][i..i + |src|] == s[i + 1..i + 1 + |src|];
        }
      }
      ReplaceAllAbsent(s[1..], src, rep);
      assert [s[0]] + s[1..] == s;
    }
  }

  /** `Char.IsWhiteSpace`: the Unicode separators and the white-space controls. */
  predicate IsWhiteSpace(c: char) {
    || c == ' ' || c == '\t' || c == '\n' || c == '\U{000B}' || c == '\U{000C}' || c == '\r'
    || c == '\U{0085}' || c == '\U{00A0}' || c == '\U{1680}' || ('\U{2000}' <= c <= '\U{200A}')
    || c == '\U{2028}' || c == '\U{2029}' || c == '\U{202F}' || c == '\U{205F}' || c == '\U{3000}'
  }

  function TrimStart(s: string): (r: string)
    ensures |r| <= |s|
    ensures r == [] || !IsWhiteSpace(r[0])
    ensures r == s[|s| - |r|..]
    ensures forall i :: 0 <= i < |s| - |r| ==> IsWhiteSpace(s[i])
    decreases |s|
  {
    if s != [] && IsWhiteSpace(s[0]) then TrimStart(s[1..]) else s
  }

  function TrimEnd(s: string): (r: string)
    ensures |r| <= |s|
    ensures r == [] || !IsWhiteSpace(r[|r| - 1])
    ensures r == s[..|r|]
    ensures forall i :: |r| <= i < |s| ==> IsWhiteSpace(s[i])
    decreases |s|
  {
    if s != [] && IsWhiteSpace(s[|s| - 1]) then TrimEnd(s[..|s| - 1]) else s
  }

  /** `s.Trim()`: leading and trailing white space removed. */
  function Trim(s: string): string
  {
    TrimEnd(TrimStart(s))
  }

  lemma TrimIdempotent(s: string)
    ensures Trim(Trim(s)) == Trim(s)
  {
    var t := Trim(s);
    if t != [] {
      assert !IsWhiteSpace(t[0]);
      assert TrimStart(t) == t;
      assert TrimEnd(t) == t;
    }
  }
}
