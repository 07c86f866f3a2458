/**
 * The .NET string and integer primitives the client relies on: invariant-culture
 * integer formatting, `long.TryParse`, `string.Join`, ordinal `Contains`,
 * `StartsWith` and `IndexOf`, `OrdinalIgnoreCase` equality and
 * `string.IsNullOrWhiteSpace`.  Strings are sequences of UTF-16 code units.
 */
module Text {
  import opened Wrappers

  /** Bounds of the C# `long` (System.Int64). */
  const LongMin: int := -0x8000_0000_0000_0000
  const LongMax: int := 0x7FFF_FFFF_FFFF_FFFF

  predicate InLong(n: int) { LongMin <= n <= LongMax }

  /** A C# `long`. */
  type Long = n: int | InLong(n)

  predicate IsDigit(c: char) { '0' <= c <= '9' }

  predicate AllDigits(s: string) { forall i :: 0 <= i < |s| ==> IsDigit(s[i]) }

  function DigitValue(c: char): (d: nat)
    requires IsDigit(c)
    ensures d < 10
  {
    c as int - '0' as int
  }

  function DigitChar(d: nat): (c: char)
    requires d < 10
    ensures IsDigit(c) && DigitValue(c) == d
  {
    (d + '0' as int) as char
  }

  /** `n.ToString()` for a non-negative integer: decimal digits, no leading zero. */
  function NatToString(n: nat): (s: string)
    ensures 1 <= |s| && AllDigits(s)
    ensures |s| > 1 ==> s[0] != '0'
  {
    if n < 10 then [DigitChar(n)] else NatToString(n / 10) + [DigitChar(n % 10)]
  }

  /** `n.ToString()` with invariant culture: a leading '-' for negative values. */
  function IntToString(n: int): (s: string)
    ensures 1 <= |s|
  {
    if n < 0 then "-" + NatToString(-n) else NatToString(n)
  }

  /** The value of a run of decimal digits (the empty run is 0). */
  function ParseDigits(s: string): nat
    requires AllDigits(s)
  {
    if s == [] then 0 else ParseDigits(s[..|s| - 1]) * 10 + DigitValue(s[|s| - 1])
  }

  /**
   * The integer that `long.TryParse` with `NumberStyles.Integer` reads before
   * its range check: at most one leading sign, then at least one digit.
   */
  function ParseSignedInteger(s: string): Option<int>
  {
    if |s| >= 2 && s[0] == '-' && AllDigits(s[1..]) then Some(-(ParseDigits(s[1..]) as int))
    else if |s| >= 2 && s[0] == '+' && AllDigits(s[1..]) then Some(ParseDigits(s[1..]))
    else if |s| >= 1 && AllDigits(s) then Some(ParseDigits(s))
    else None
  }

  /** `long.TryParse(s, out v)`: the value when it is well formed and fits a long. */
  function TryParseLong(s: string): Option<int>
  {
    match ParseSignedInteger(s)
    case Some(v) => if InLong(v) then Some(v) else None
    case None => None
  }

  lemma {:induction false} ParseNatToString(n: nat)
    ensures ParseDigits(NatToString(n)) == n
  {
    if n >= 10 {
      var s := NatToString(n);
      assert s[..|s| - 1] == NatToString(n / 10);
      ParseNatToString(n / 10);
    }
  }

  /** Parsing the decimal text of any integer gives that integer back. */
  lemma ParseSignedOfIntToString(n: int)
    ensures ParseSignedInteger(IntToString(n)) == Some(n)
  {
    var s := IntToString(n);
    if n < 0 {
      var digits := NatToString(-n);
      assert s[0] == '-' && s[1..] == digits;
      ParseNatToString(-n);
      assert ParseSignedInteger(s) == Some(-(ParseDigits(digits) as int));
    } else {
      assert IsDigit(s[0]);
      ParseNatToString(n);
      assert ParseSignedInteger(s) == Some(ParseDigits(s));
    }
  }

  /** Formatting an integer and parsing it back is the identity on the long range. */
  lemma TryParseLongOfIntToString(n: int)
    requires InLong(n)
    ensures TryParseLong(IntToString(n)) == Some(n)
  {
    ParseSignedOfIntToString(n);
  }

  /** Distinct integers print differently. */
  lemma IntToStringInjective(a: int, b: int)
    requires IntToString(a) == IntToString(b)
    ensures a == b
  {
    ParseSignedOfIntToString(a);
    ParseSignedOfIntToString(b);
  }

  /** A text is its head, middle and tail put back together. */
  lemma Reassembled(t: string, a: nat, b: nat)
    requires a <= b <= |t|
    ensures t == t[..a] + t[a..b] + t[b..]
  {
  }

  /** `s.StartsWith(prefix, StringComparison.Ordinal)`. */
  predicate StartsWith(s: string, prefix: string)
  {
    |prefix| <= |s| && s[..|prefix|] == prefix
  }

  /** `s.Contains(part)`: an ordinal substring test. */
  predicate Contains(s: string, part: string)
  {
    exists i :: 0 <= i <= |s| && part <= s[i..]
  }

  lemma ContainsAt(s: string, part: string, i: nat)
    requires i + |part| <= |s| && s[i..i + |part|] == part
    ensures Contains(s, part)
  {
    assert part <= s[i..];
  }

  /** A string contains whatever it ends with. */
  lemma ContainsSuffix(before: string, part: string)
    ensures Contains(before + part, part)
  {
    assert (before + part)[|before|..] == part;
    ContainsAt(before + part, part, |before|);
  }

  /** A string cannot contain a part whose first character it lacks. */
  lemma NotContainsFirstChar(s: string, part: string)
    requires |part| > 0 && part[0] !in s
    ensures !Contains(s, part)
  {
    forall i | 0 <= i <= |s| ensures !(part <= s[i..]) {
      if i < |s| {
        assert s[i] in s;
      }
    }
  }

  /** The upper-case mapping `OrdinalIgnoreCase` applies; letters outside ASCII are kept. */
  function AsciiUpper(c: char): char
  {
    if 'a' <= c <= 'z' then (c as int - 32) as char else c
  }

  /** `string.Equals(a, b, StringComparison.OrdinalIgnoreCase)` on ASCII letters. */
  predicate EqualsIgnoreCase(a: string, b: string)
  {
    |a| == |b| && forall i :: 0 <= i < |a| ==> AsciiUpper(a[i]) == AsciiUpper(b[i])
  }

  /** `s.IndexOf(c)`: the first position of `c`, or -1 when it does not occur. */
  function IndexOf(s: string, c: char): (r: int)
    ensures -1 <= r < |s|
    ensures r == -1 <==> c !in s
    ensures 0 <= r ==> s[r] == c && c !in s[..r]
  {
    if |s| == 0 then -1
    else if s[0] == c then 0
    else
      var k := IndexOf(s[1..], c);
      assert s[1..][..if k < 0 then 0 else k] == s[1..1 + if k < 0 then 0 else k];
      if k < 0 then -1 else k + 1
  }

  /** `string.Join(sep, parts)`. */
  function Join(sep: string, parts: seq<string>): string
  {
    if |parts| == 0 then ""
    else if |parts| == 1 then parts[0]
    else Join(sep, parts[..|parts| - 1]) + sep + parts[|parts| - 1]
  }

  /** `char.IsWhiteSpace`: the Unicode space separators, line and paragraph separators, U+0009-U+000D and U+0085. */
  predicate IsWhiteSpace(c: char)
  {
    c == ' ' || ('\t' <= c <= '\r') || c == '\U{0085}' || c == '\U{00A0}' || c == '\U{1680}'
    || ('\U{2000}' <= c <= '\U{200A}') || c == '\U{2028}' || c == '\U{2029}'
    || c == '\U{202F}' || c == '\U{205F}' || c == '\U{3000}'
  }

  /** `string.IsNullOrWhiteSpace(s)`, with `None` for null. */
  predicate IsNullOrWhiteSpace(s: Option<string>)
  {
    s.None? || forall i :: 0 <= i < |s.value| ==> IsWhiteSpace(s.value[i])
  }

  /** A nullable string as interpolation and concatenation print it: null prints nothing. */
  function NullText(s: Option<string>): (t: string)
    ensures s.Some? ==> t == s.value
    ensures s.None? ==> t == ""
  {
    match s
    case Some(v) => v
    case None => ""
  }

  /** `string.IsNullOrEmpty(s)`. */
  predicate IsNullOrEmpty(s: Option<string>)
  {
    s.None? || s.value == ""
  }

  predicate IsSign(c: char) { c == '+' || c == '-' }

  predicate AllSigns(s: string) { forall i :: 0 <= i < |s| ==> IsSign(s[i]) }

  /** How many '+' and '-' characters `s` starts with. */
  function LeadingSigns(s: string): (k: nat)
    ensures k <= |s| && AllSigns(s[..k])
    ensures k < |s| ==> !IsSign(s[k])
  {
    if |s| == 0 || !IsSign(s[0]) then 0
    else
      var k := LeadingSigns(s[1..]);
      assert s[..k + 1] == [s[0]] + s[1..][..k];
      k + 1
  }

  /** The leading run of signs of `signs + rest` is `signs` when `rest` starts with a digit. */
  lemma {:induction false} LeadingSignsOf(signs: string, rest: string)
    requires AllSigns(signs) && |rest| > 0 && IsDigit(rest[0])
    ensures LeadingSigns(signs + rest) == |signs|
  {
    if |signs| > 0 {
      assert (signs + rest)[1..] == signs[1..] + rest;
      LeadingSignsOf(signs[1..], rest);
    }
  }

  /**
   * The text a whole-string regular expression ending in `$` is matched
   * against: `$` also matches just before a final "\n".
   */
  function StripFinalNewline(s: string): (t: string)
    ensures t == s || (s == t + "\n")
  {
    if |s| > 0 && s[|s| - 1] == '\n' then s[..|s| - 1] else s
  }

  function Zeros(n: nat): (s: string)
    ensures |s| == n && forall i :: 0 <= i < n ==> s[i] == '0'
  {
    if n == 0 then "" else "0" + Zeros(n - 1)
  }

  /** `s` without its trailing '0' characters. */
  function TrimTrailingZeros(s: string): (t: string)
    ensures |t| <= |s| && t == s[..|t|]
    ensures forall i :: |t| <= i < |s| ==> s[i] == '0'
    ensures |t| > 0 ==> t[|t| - 1] != '0'
  {
    if |s| == 0 || s[|s| - 1] != '0' then s else TrimTrailingZeros(s[..|s| - 1])
  }

  /** Two decimal digits, as the custom format specifiers "hh" and "mm" print 0..99. */
  function TwoDigits(n: nat): (s: string)
    requires n < 100
    ensures |s| == 2 && AllDigits(s) && ParseDigits(s) == n
  {
    var s := [DigitChar(n / 10), DigitChar(n % 10)];
    assert s[..1] == [DigitChar(n / 10)] && s[..1][..0] == [];
    assert ParseDigits(s[..1]) == n / 10;
    s
  }
}
