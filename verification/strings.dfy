/** The JavaScript string built-ins the storefront relies on: rendering an
    integer in decimal (`String(n)`, template literals), `parseInt(s, 10)`,
    `parseInt(s)` with an automatic radix, and `String.prototype.trim`. */
module Strings {
  import opened Common

  predicate IsDigit(c: char) {
    '0' <= c <= '9'
  }

  predicate AllDigits(s: string) {
    forall i :: 0 <= i < |s| ==> IsDigit(s[i])
  }

  function DigitChar(d: nat): (c: char)
    requires d < 10
    ensures IsDigit(c)
  {
    (('0' as int) + d) as char
  }

  function DigitValue(c: char): (d: nat)
    requires IsDigit(c)
    ensures d < 10
  {
    (c as int) - ('0' as int)
  }

  /** Decimal value of a string of digits, most significant digit first. */
  function DigitsValue(s: string): nat
    requires AllDigits(s)
  {
    if |s| == 0 then 0 else DigitsValue(s[..|s| - 1]) * 10 + DigitValue(s[|s| - 1])
  }

  /** The decimal rendering of a natural number: digits only, no leading zero. */
  function NatToString(n: nat): (s: string)
    ensures |s| >= 1
    ensures AllDigits(s)
    ensures s[0] == '0' ==> n == 0 && s == "0"
    decreases n
  {
    if n < 10 then [DigitChar(n)] else NatToString(n / 10) + [DigitChar(n % 10)]
  }

  /** The decimal rendering of an integer, with a leading '-' when negative. */
  function IntToString(i: int): (s: string)
    ensures |s| >= 1
    ensures i >= 0 <==> IsDigit(s[0])
    ensures i < 0 <==> s[0] == '-'
  {
    if i < 0 then "-" + NatToString(-i) else NatToString(i)
  }

  /** The longest prefix of `s` made of digits. */
  function LeadingDigits(s: string): (d: string)
    ensures d <= s
    ensures AllDigits(d)
    ensures |d| < |s| ==> !IsDigit(s[|d|])
  {
    if |s| > 0 && IsDigit(s[0]) then [s[0]] + LeadingDigits(s[1..]) else ""
  }

  /** The sign `parseInt` reads after skipping white space: the factor it
      multiplies by and the rest of the text. */
  function SignSplit(t: string): (r: (int, string))
    ensures r.0 == 1 || r.0 == -1
    ensures r.1 == t || (|t| > 0 && r.1 == t[1..])
  {
    if |t| > 0 && (t[0] == '-' || t[0] == '+') then (if t[0] == '-' then -1 else 1, t[1..])
    else (1, t)
  }

  /** `parseInt(s, 10)`: leading white space skipped, an optional sign, then
      the longest run of decimal digits; `None` stands for NaN (no digit after
      the sign). */
  function ParseInt(s: string): Option<int> {
    var (sign, rest) := SignSplit(TrimStart(s));
    var digits := LeadingDigits(rest);
    if |digits| == 0 then None else Some(sign * DigitsValue(digits))
  }

  predicate IsHexDigit(c: char) {
    IsDigit(c) || 'a' <= c <= 'f' || 'A' <= c <= 'F'
  }

  predicate AllHexDigits(s: string) {
    forall i :: 0 <= i < |s| ==> IsHexDigit(s[i])
  }

  function HexValue(c: char): (d: nat)
    requires IsHexDigit(c)
    ensures d < 16
  {
    if IsDigit(c) then DigitValue(c)
    else if 'a' <= c <= 'f' then (c as int) - ('a' as int) + 10
    else (c as int) - ('A' as int) + 10
  }

  /** Hexadecimal value of a string of hex digits, most significant first. */
  function HexDigitsValue(s: string): nat
    requires AllHexDigits(s)
  {
    if |s| == 0 then 0 else HexDigitsValue(s[..|s| - 1]) * 16 + HexValue(s[|s| - 1])
  }

  /** The longest prefix of `s` made of hex digits. */
  function LeadingHexDigits(s: string): (d: string)
    ensures d <= s
    ensures AllHexDigits(d)
    ensures |d| < |s| ==> !IsHexDigit(s[|d|])
  {
    if |s| > 0 && IsHexDigit(s[0]) then [s[0]] + LeadingHexDigits(s[1..]) else ""
  }

  /** Whether the text after white space and sign starts with "0x" or "0X",
      which makes `parseInt` without a radix read hexadecimal. */
  predicate HexPrefixed(s: string) {
    var rest := SignSplit(TrimStart(s)).1;
    |rest| >= 2 && rest[0] == '0' && (rest[1] == 'x' || rest[1] == 'X')
  }

  /** `parseInt(s)` with no radix argument: as `parseInt(s, 10)`, except that
      a "0x"/"0X" prefix after the sign switches to base 16. */
  function ParseIntAuto(s: string): (r: Option<int>)
    ensures !HexPrefixed(s) ==> r == ParseInt(s)
    ensures HexPrefixed(s) ==>
      var rest := SignSplit(TrimStart(s)).1;
      (r.None? <==> LeadingHexDigits(rest[2..]) == "")
  {
    var (sign, rest) := SignSplit(TrimStart(s));
    if |rest| >= 2 && rest[0] == '0' && (rest[1] == 'x' || rest[1] == 'X') then
      var digits := LeadingHexDigits(rest[2..]);
      if |digits| == 0 then None else Some(sign * HexDigitsValue(digits))
    else
      ParseInt(s)
  }

  /** Base 10 and automatic radix read "0x1A" differently: 0 against 26. */
  lemma RadixMatters()
    ensures ParseInt("0x1A") == Some(0)
    ensures ParseIntAuto("0x1A") == Some(26)
  {
    assert TrimStart("0x1A") == "0x1A";
    assert SignSplit("0x1A") == (1, "0x1A");
    assert "0x1A"[1..] == "x1A";
    assert LeadingDigits("x1A") == "";
    assert LeadingDigits("0x1A") == "0";
    assert DigitsValue("0") == 0;
    assert "0x1A"[2..] == "1A";
    assert "1A"[1..] == "A";
    assert "A"[1..] == "";
    assert LeadingHexDigits("1A") == "1A";
    assert "1A"[..1] == "1";
    assert HexDigitsValue("1") == 1;
    assert HexDigitsValue("1A") == 26;
  }

  lemma {:induction false} LeadingDigitsOfDigits(s: string)
    requires AllDigits(s)
    ensures LeadingDigits(s) == s
    decreases |s|
  {
    if |s| > 0 {
      LeadingDigitsOfDigits(s[1..]);
      assert [s[0]] + s[1..] == s;
    }
  }

  /** Reading back a rendered natural number gives the number. */
  lemma {:induction false} DigitsValueOfNatToString(n: nat)
    ensures DigitsValue(NatToString(n)) == n
    decreases n
  {
    if n >= 10 {
      var s := NatToString(n);
      DigitsValueOfNatToString(n / 10);
      assert s[..|s| - 1] == NatToString(n / 10);
    }
  }

  /** `parseInt(String(i), 10) == i` for every integer. */
  lemma ParseIntOfIntToString(i: int)
    ensures ParseInt(IntToString(i)) == Some(i)
  {
    var s := IntToString(i);
    assert !IsSpace(s[0]);
    assert TrimStart(s) == s;
    if i < 0 {
      var n := NatToString(-i);
      assert s == "-" + n;
      assert s[1..] == n;
      LeadingDigitsOfDigits(n);
      DigitsValueOfNatToString(-i);
    } else {
      assert s == NatToString(i);
      assert IsDigit(s[0]);
      LeadingDigitsOfDigits(s);
      DigitsValueOfNatToString(i);
    }
  }

  /** `parseInt(String(i))` without a radix also gives `i` back: a rendered
      integer never carries a hex prefix. */
  lemma ParseIntAutoOfIntToString(i: int)
    ensures ParseIntAuto(IntToString(i)) == Some(i)
  {
    var s := IntToString(i);
    assert !IsSpace(s[0]);
    assert TrimStart(s) == s;
    if i < 0 {
      assert SignSplit(s).1 == NatToString(-i);
    } else {
      assert SignSplit(s).1 == NatToString(i);
    }
    ParseIntOfIntToString(i);
  }

  /** The characters `String.prototype.trim` removes: ECMAScript WhiteSpace
      and LineTerminator code points. */
  predicate IsSpace(c: char) {
    c == ' ' || c == '\t' || c == '\n' || c == '\r' || c == '\U{000B}' || c == '\U{000C}'
    || c == '\U{00A0}' || c == '\U{1680}' || ('\U{2000}' <= c <= '\U{200A}')
    || c == '\U{2028}' || c == '\U{2029}' || c == '\U{202F}' || c == '\U{205F}'
    || c == '\U{3000}' || c == '\U{FEFF}'
  }

  predicate Blank(s: string) {
    forall k :: 0 <= k < |s| ==> IsSpace(s[k])
  }

  /** `s` without its leading white space: a suffix of `s` preceded only by
      white space, starting with a non-space character when non-empty. */
  function TrimStart(s: string): (r: string)
    ensures |r| <= |s| && r == s[|s| - |r|..]
    ensures Blank(s[..|s| - |r|])
    ensures r != "" ==> !IsSpace(r[0])
  {
    if |s| > 0 && IsSpace(s[0]) then TrimStart(s[1..]) else s
  }

  /** `s` without its trailing white space. */
  function TrimEnd(s: string): (r: string)
    ensures r <= s
    ensures Blank(s[|r|..])
    ensures r != "" ==> !IsSpace(r[|r| - 1])
  {
    if |s| > 0 && IsSpace(s[|s| - 1]) then TrimEnd(s[..|s| - 1]) else s
  }

  /** `String.prototype.trim`. */
  function Trim(s: string): (r: string)
    ensures r != "" ==> !IsSpace(r[0]) && !IsSpace(r[|r| - 1])
  {
    TrimEnd(TrimStart(s))
  }

  lemma TrimStartEmptyIffBlank(s: string)
    ensures TrimStart(s) == "" <==> Blank(s)
  {
    var a := TrimStart(s);
    if a == "" {
      assert s[..|s| - |a|] == s;
    } else {
      assert a[0] == s[|s| - |a|];
    }
  }

  /** A string trims to "" exactly when it is all white space. */
  lemma TrimEmptyIffBlank(s: string)
    ensures Trim(s) == "" <==> Blank(s)
  {
    TrimStartEmptyIffBlank(s);
  }

  /** Trimming twice is trimming once. */
  lemma TrimIdempotent(s: string)
    ensures Trim(Trim(s)) == Trim(s)
  {
    var t := Trim(s);
    if t != "" {
      assert TrimStart(t) == t;
      assert TrimEnd(t) == t;
    }
  }
}
