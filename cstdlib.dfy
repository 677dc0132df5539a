/** The C library's `atoi` (section 7.22.1.2 of ISO/IEC 9899:2011), which the
    `asInt` accessor applies to a parameter's stored value: leading white space
    is skipped, an optional `+` or `-` sign is read, then the longest run of
    decimal digits; no digits at all gives 0. Integers are unbounded here, so
    the undefined behaviour of an out-of-range result is not modelled. */
module CStdlib {

  /** White space in the "C" locale (`isspace`). */
  predicate IsSpace(c: char) {
    c == ' ' || c == '\t' || c == '\n' || c == '\U{0B}' || c == '\U{0C}' || c == '\r'
  }

  predicate IsDigit(c: char) {
    '0' <= c <= '9'
  }

  function DigitValue(c: char): (d: nat)
    requires IsDigit(c)
    ensures d < 10
  {
    c as int - '0' as int
  }

  function DigitChar(d: nat): (c: char)
    requires d < 10
    ensures IsDigit(c) && DigitValue(c) == d
  {
    ('0' as int + d) as char
  }

  predicate AllDigits(s: string) {
    forall k :: 0 <= k < |s| ==> IsDigit(s[k])
  }

  /** The input with its leading white space removed. */
  function SkipSpace(s: string): (r: string)
    ensures |r| <= |s| && r == s[|s| - |r|..]
    ensures r == [] || !IsSpace(r[0])
    ensures forall k :: 0 <= k < |s| - |r| ==> IsSpace(s[k])
  {
    if s != [] && IsSpace(s[0]) then SkipSpace(s[1..]) else s
  }

  /** Number of decimal digits at the front of `s`. */
  function DigitRun(s: string): (n: nat)
    ensures n <= |s|
    ensures AllDigits(s[..n])
    ensures n == |s| || !IsDigit(s[n])
  {
    if s != [] && IsDigit(s[0]) then 1 + DigitRun(s[1..]) else 0
  }

  /** The value of a string of decimal digits, most significant first; the
      empty string is worth 0. */
  function DigitsValue(d: string): nat
    requires AllDigits(d)
  {
    if d == [] then 0 else DigitsValue(d[..|d| - 1]) * 10 + DigitValue(d[|d| - 1])
  }

  /** The magnitude read after the sign: the value of the longest digit prefix. */
  function PrefixValue(s: string): (v: nat)
    ensures v != 0 ==> s != [] && IsDigit(s[0])
  {
    DigitsValue(s[..DigitRun(s)])
  }

  /** `atoi`: only a digit of the text can make the result non-zero, and only
      a `-` right after the leading white space can make it negative. */
  function Atoi(s: string): (r: int)
    ensures r != 0 ==> exists k :: 0 <= k < |s| && IsDigit(s[k])
    ensures r < 0 ==> SkipSpace(s) != [] && SkipSpace(s)[0] == '-'
  {
    var t := SkipSpace(s);
    var n := |s| - |t|;
    assert t != [] ==> s[n] == t[0];
    assert |t| > 1 ==> s[n + 1] == t[1];
    if t != [] && t[0] == '-' then -(PrefixValue(t[1..]) as int)
    else if t != [] && t[0] == '+' then PrefixValue(t[1..])
    else PrefixValue(t)
  }

  /** Decimal text of a natural number, without leading zeros. */
  function NatToString(n: nat): (s: string)
    ensures s != [] && AllDigits(s)
    decreases n
  {
    if n < 10 then [DigitChar(n)] else NatToString(n / 10) + [DigitChar(n % 10)]
  }

  /** Decimal text of an integer, with a `-` when it is negative. */
  function IntToString(n: int): (s: string)
    ensures s != []
  {
    if n < 0 then "-" + NatToString(-n) else NatToString(n)
  }

  lemma {:induction false} DigitsValueOfNatToString(n: nat)
    ensures DigitsValue(NatToString(n)) == n
    decreases n
  {
    if n >= 10 {
      var s := NatToString(n);
      assert s[..|s| - 1] == NatToString(n / 10);
      DigitsValueOfNatToString(n / 10);
    }
  }

  /** Digits followed by something that is not a digit: the run stops exactly
      at the end of the digits. */
  lemma {:induction false} DigitRunOfDigits(d: string, rest: string)
    requires AllDigits(d)
    requires rest == [] || !IsDigit(rest[0])
    ensures DigitRun(d + rest) == |d|
    decreases |d|
  {
    if d != [] {
      assert (d + rest)[1..] == d[1..] + rest;
      DigitRunOfDigits(d[1..], rest);
    } else {
      assert d + rest == rest;
    }
  }

  /** `atoi` reads the longest digit prefix: any tail that does not start with
      a digit is ignored ("42abc" gives 42). */
  lemma AtoiDigitPrefix(d: string, rest: string)
    requires d != [] && AllDigits(d)
    requires rest == [] || !IsDigit(rest[0])
    ensures Atoi(d + rest) == DigitsValue(d)
  {
    var s := d + rest;
    assert s[0] == d[0];
    AtoiOfDigitStart(s);
    DigitRunOfDigits(d, rest);
    assert s[..|d|] == d;
  }

  /** Leading white space does not change the result. */
  lemma {:induction false} AtoiSkipsSpace(ws: string, s: string)
    requires forall k :: 0 <= k < |ws| ==> IsSpace(ws[k])
    ensures Atoi(ws + s) == Atoi(s)
    decreases |ws|
  {
    if ws != [] {
      assert (ws + s)[1..] == ws[1..] + s;
      AtoiSkipsSpace(ws[1..], s);
    } else {
      assert ws + s == s;
    }
  }

  lemma PrefixValueOfNatToString(m: nat)
    ensures PrefixValue(NatToString(m)) == m
  {
    var digits := NatToString(m);
    DigitsValueOfNatToString(m);
    DigitRunOfDigits(digits, []);
    assert digits + [] == digits;
    assert digits[..|digits|] == digits;
  }

  /** `atoi` on text that starts with a digit reads its digit prefix. */
  lemma AtoiOfDigitStart(s: string)
    requires s != [] && IsDigit(s[0])
    ensures Atoi(s) == PrefixValue(s)
  {
    assert SkipSpace(s) == s;
  }

  /** `atoi` on text that starts with `-` negates the digit prefix after it. */
  lemma AtoiOfMinus(s: string)
    ensures Atoi("-" + s) == -(PrefixValue(s) as int)
  {
    var t := "-" + s;
    assert t[0] == '-' && !IsSpace(t[0]);
    assert SkipSpace(t) == t;
    assert t[1..] == s;
  }

  /** `atoi` on text that starts with `+` reads the digit prefix after it. */
  lemma AtoiOfPlus(s: string)
    ensures Atoi("+" + s) == PrefixValue(s) as int
  {
    var t := "+" + s;
    assert t[0] == '+' && !IsSpace(t[0]);
    assert SkipSpace(t) == t;
    assert t[1..] == s;
  }

  /** A sign, `+` or `-`, directly followed by digits and then a non-digit:
      the digits are read and the sign applied ("+42abc" gives 42, "-7" gives
      -7). */
  lemma AtoiSigned(sign: string, d: string, rest: string)
    requires sign == "+" || sign == "-"
    requires d != [] && AllDigits(d)
    requires rest == [] || !IsDigit(rest[0])
    ensures Atoi(sign + d + rest) == if sign == "-" then -(DigitsValue(d) as int) else DigitsValue(d) as int
  {
    var t := d + rest;
    assert sign + d + rest == sign + t;
    DigitRunOfDigits(d, rest);
    assert t[..|d|] == d;
    if sign == "-" {
      AtoiOfMinus(t);
    } else {
      AtoiOfPlus(t);
    }
  }

  /** Round trip: `atoi` reads back the decimal text of every integer. */
  lemma AtoiIntToString(n: int)
    ensures Atoi(IntToString(n)) == n
  {
    if n < 0 {
      PrefixValueOfNatToString(-n);
      AtoiOfMinus(NatToString(-n));
    } else {
      PrefixValueOfNatToString(n);
      var digits := NatToString(n);
      assert AllDigits(digits);
      AtoiOfDigitStart(digits);
    }
  }

  /** A string with no digit after its leading white space and optional sign
      reads as 0 ("abc", "-abc", " +" all give 0). */
  lemma AtoiNoDigits(s: string)
    requires var t := SkipSpace(s);
             var u := if t != [] && (t[0] == '-' || t[0] == '+') then t[1..] else t;
             u == [] || !IsDigit(u[0])
    ensures Atoi(s) == 0
  {
    var t := SkipSpace(s);
    if t != [] && (t[0] == '-' || t[0] == '+') {
      assert DigitRun(t[1..]) == 0;
    } else {
      assert DigitRun(t) == 0;
    }
  }
}
