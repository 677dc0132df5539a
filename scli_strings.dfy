/** The two static string helpers of `scli::CLI`: dash stripping of matching
    patterns and splitting of a token at its first `=`. */
module ScliStrings {

  /** The result of `string::find`: a position, or `npos` when absent. */
  datatype Found = Npos | At(index: nat)

  /** `StripPattern`: removes every leading `-` (the C++ loop erases the
      first character while it is a dash). */
  function StripPattern(pattern: string): (r: string)
    ensures |r| <= |pattern|
    ensures r == [] || r[0] != '-'
  {
    if pattern != [] && pattern[0] == '-' then StripPattern(pattern[1..]) else pattern
  }

  /** `n` dashes. */
  function Dashes(n: nat): (s: string)
    ensures |s| == n && forall k :: 0 <= k < n ==> s[k] == '-'
  {
    if n == 0 then [] else "-" + Dashes(n - 1)
  }

  /** The result is a suffix of the input with no leading dash, and what was
      removed is exactly the leading run of dashes: the input is some number
      of dashes followed by the result. */
  lemma {:induction false} StripPatternSpec(pattern: string)
    ensures var r := StripPattern(pattern);
            |r| <= |pattern| && (r == [] || r[0] != '-') &&
            pattern == Dashes(|pattern| - |r|) + r
    decreases |pattern|
  {
    if pattern != [] && pattern[0] == '-' {
      StripPatternSpec(pattern[1..]);
    }
  }

  /** A pattern without a leading dash is left as it is. */
  lemma StripPatternNoDash(pattern: string)
    requires pattern == [] || pattern[0] != '-'
    ensures StripPattern(pattern) == pattern
  {
  }

  /** Stripping twice is stripping once. */
  lemma StripPatternIdempotent(pattern: string)
    ensures StripPattern(StripPattern(pattern)) == StripPattern(pattern)
  {
    StripPatternSpec(pattern);
    StripPatternNoDash(StripPattern(pattern));
  }

  /** Any number of leading dashes in front of a dash-free pattern are all
      removed: `-d`, `--d` and `d` are the same pattern. */
  lemma {:induction false} StripPatternDashes(n: nat, p: string)
    requires p == [] || p[0] != '-'
    ensures StripPattern(Dashes(n) + p) == p
    decreases n
  {
    if n > 0 {
      assert (Dashes(n) + p)[1..] == Dashes(n - 1) + p;
      StripPatternDashes(n - 1, p);
    } else {
      assert Dashes(n) + p == p;
    }
  }

  /** Index of the first occurrence of `c` in `s`, if any (`string::find`). */
  function FindFirst(s: string, c: char): (r: Found)
    ensures r.Npos? <==> c !in s
    ensures r.At? ==> r.index < |s| && s[r.index] == c && c !in s[..r.index]
  {
    if s == [] then Npos
    else if s[0] == c then At(0)
    else match FindFirst(s[1..], c)
      case Npos => Npos
      case At(k) => At(k + 1)
  }

  /** The two out-parameters of `SplitAtEqual`. */
  datatype Split = Split(pattern: string, value: string)

  /** `SplitAtEqual(str, pattern, value)`: `value` is cleared; if `str` holds a
      `=`, `pattern` becomes the text before the first one and `value` the text
      after it; otherwise `pattern` keeps the value it had on entry. */
  function SplitAtEqual(str: string, pattern: string): (r: Split)
    ensures '=' !in str ==> r == Split(pattern, "")
    ensures '=' in str ==> '=' !in r.pattern && |r.pattern| + 1 + |r.value| == |str|
  {
    match FindFirst(str, '=')
    case Npos => Split(pattern, "")
    case At(index) => Split(str[..index], str[index + 1..])
  }

  /** With a `=` in the token, the pattern is the text before the first `=`
      and the value the text after it; without one, the pattern is left as
      it was and the value is empty. */
  lemma SplitAtEqualSpec(str: string, pattern: string)
    ensures var r := SplitAtEqual(str, pattern);
            '=' in str ==> r.pattern + "=" + r.value == str && '=' !in r.pattern
    ensures '=' !in str ==> SplitAtEqual(str, pattern) == Split(pattern, "")
  {
    match FindFirst(str, '=')
    case Npos =>
    case At(index) =>
      assert str == str[..index] + "=" + str[index + 1..];
  }

  /** The split is determined: a token built as `p=v` with `p` free of `=`
      splits back into exactly `p` and `v`, whatever `v` holds. */
  lemma SplitAtEqualJoin(p: string, v: string, pattern: string)
    requires '=' !in p
    ensures SplitAtEqual(p + "=" + v, pattern) == Split(p, v)
  {
    var str := p + "=" + v;
    assert str[|p|] == '=';
    SplitAtEqualSpec(str, pattern);
    var r := SplitAtEqual(str, pattern);
    assert r.pattern + "=" + r.value == str;
    assert r.pattern == str[..|r.pattern|] == p;
    assert r.value == str[|p| + 1..] == v;
  }
}
