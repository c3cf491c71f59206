/** The few Python string built-ins the core relies on: `str()` of an int and a
    bool, ASCII `upper()`/`lower()`, `s * n`, `'%-*s'` padding, and the matching
    parsers used to read a serialized line back. */
module Strings {
  import opened Common

  predicate IsDigit(c: char) { '0' <= c <= '9' }

  predicate AllDigits(s: string) { forall i :: 0 <= i < |s| ==> IsDigit(s[i]) }

  function DigitChar(d: nat): (c: char)
    requires d < 10
    ensures IsDigit(c) && c as int - '0' as int == d
  {
    (d + '0' as int) as char
  }

  /** `str(n)` for a non-negative int: decimal digits, no leading zero. */
  function NatToString(n: nat): (r: string)
    ensures |r| >= 1 && AllDigits(r)
    ensures r[0] == '0' ==> n == 0
  {
    if n < 10 then [DigitChar(n)] else NatToString(n / 10) + [DigitChar(n % 10)]
  }

  function ParseNat(s: string): nat
    requires AllDigits(s)
  {
    if s == [] then 0 else ParseNat(s[..|s| - 1]) * 10 + (s[|s| - 1] as int - '0' as int)
  }

  lemma {:induction false} ParseNatToString(n: nat)
    ensures ParseNat(NatToString(n)) == n
  {
    if n >= 10 {
      var s := NatToString(n / 10) + [DigitChar(n % 10)];
      assert s[..|s| - 1] == NatToString(n / 10);
      ParseNatToString(n / 10);
    }
  }

  /** `str(n)` for any int. */
  function IntToString(n: int): (r: string)
    ensures |r| >= 1
    ensures ',' !in r && ' ' !in r && ')' !in r
  {
    if n < 0 then "-" + NatToString(-n) else NatToString(n)
  }

  /** `int(s)` restricted to what `str` produces; None for anything else. */
  function ParseInt(s: string): Option<int>
  {
    if |s| >= 2 && s[0] == '-' && AllDigits(s[1..]) then Some(-(ParseNat(s[1..]) as int))
    else if |s| >= 1 && AllDigits(s) then Some(ParseNat(s))
    else None
  }

  lemma IntToStringRoundTrip(n: int)
    ensures ParseInt(IntToString(n)) == Some(n)
  {
    if n < 0 {
      var s := IntToString(n);
      assert s[1..] == NatToString(-n);
      ParseNatToString(-n);
    } else {
      ParseNatToString(n);
    }
  }

  /** `str(b)` for a Python bool. */
  function BoolToString(b: bool): string { if b then "True" else "False" }

  function ParseBool(s: string): Option<bool>
  {
    if s == "True" then Some(true) else if s == "False" then Some(false) else None
  }

  function UpperChar(c: char): char { if 'a' <= c <= 'z' then (c as int - 32) as char else c }

  function LowerChar(c: char): char { if 'A' <= c <= 'Z' then (c as int + 32) as char else c }

  /** `s.upper()` on ASCII letters. */
  function Upper(s: string): (r: string)
    ensures |r| == |s| && forall i :: 0 <= i < |s| ==> r[i] == UpperChar(s[i])
  {
    if s == [] then [] else [UpperChar(s[0])] + Upper(s[1..])
  }

  /** `s.lower()` on ASCII letters. */
  function Lower(s: string): (r: string)
    ensures |r| == |s| && forall i :: 0 <= i < |s| ==> r[i] == LowerChar(s[i])
  {
    if s == [] then [] else [LowerChar(s[0])] + Lower(s[1..])
  }

  /** Two strings with the same upper-case form have the same lower-case form. */
  lemma {:induction false} SameUpperSameLower(a: string, b: string)
    requires Upper(a) == Upper(b)
    ensures Lower(a) == Lower(b)
  {
    assert |a| == |b|;
    forall i | 0 <= i < |a| ensures Lower(a)[i] == Lower(b)[i] {
      assert Upper(a)[i] == Upper(b)[i];
    }
  }

  /** `s * n` for a string and a positive int. */
  function Repeat(s: string, n: nat): (r: string)
  {
    if n == 0 then [] else s + Repeat(s, n - 1)
  }

  lemma {:induction false} RepeatLength(s: string, n: nat)
    ensures |Repeat(s, n)| == n * |s|
  {
    if n > 0 {
      RepeatLength(s, n - 1);
    }
  }

  function Spaces(n: nat): (r: string)
    ensures |r| == n && forall i :: 0 <= i < n ==> r[i] == ' '
  {
    if n == 0 then [] else Spaces(n - 1) + [' ']
  }

  /** `'%-*s' % (width, s)`: `s` left-justified in a field of `width` columns. */
  function PadRight(s: string, width: int): (r: string)
    ensures |s| <= width ==> |r| == width
    ensures |s| >= width ==> r == s
    ensures r[..|s|] == s && forall i :: |s| <= i < |r| ==> r[i] == ' '
  {
    if |s| < width then s + Spaces(width - |s|) else s
  }

  /** The pieces of `s` between commas, as `s.split(',')`. */
  function SplitComma(s: string): (r: seq<string>)
    ensures |r| >= 1
  {
    if ',' !in s then [s]
    else
      var i := FirstIndex(s, ',');
      [s[..i]] + SplitComma(s[i + 1..])
  }

  lemma SplitCommaJoin(a: string, b: string)
    requires ',' !in a
    ensures SplitComma(a + "," + b) == [a] + SplitComma(b)
  {
    var s := a + "," + b;
    assert s[|a|] == ',';
    var i := FirstIndex(s, ',');
    assert s[..i] == a && s[i + 1..] == b;
  }
}
