/** The few Python string operations the modelled code relies on:
    `str.isspace`, `str.strip()`, `" ".join(...)`, `str.startswith`
    and the decimal rendering of an `int` in an f-string. */
module Text {
  import opened Wrappers

  /** Python's `str.isspace()` for one character: exactly the characters
      that `str.strip()` without arguments removes. */
  predicate IsSpace(c: char) {
    var n := c as int;
    n == 0x20 || 0x09 <= n <= 0x0D || 0x1C <= n <= 0x1F || n == 0x85 || n == 0xA0
    || n == 0x1680 || 0x2000 <= n <= 0x200A || n == 0x2028 || n == 0x2029
    || n == 0x202F || n == 0x205F || n == 0x3000
  }

  /** Every character of `s` is whitespace (the empty string included). */
  predicate IsBlank(s: string) {
    forall i :: 0 <= i < |s| ==> IsSpace(s[i])
  }

  /** Neither end of `s` is whitespace. */
  predicate NoEdgeSpace(s: string) {
    s == [] || (!IsSpace(s[0]) && !IsSpace(s[|s| - 1]))
  }

  lemma BlankPrefixStep(s: string, n: nat)
    requires 0 < n <= |s| && IsSpace(s[0]) && IsBlank(s[1..][..n - 1])
    ensures IsBlank(s[..n])
  {
    assert s[..n] == [s[0]] + s[1..][..n - 1];
    BlankConcat([s[0]], s[1..][..n - 1]);
  }

  lemma BlankSuffixStep(s: string, n: nat)
    requires n < |s| && IsSpace(s[|s| - 1]) && IsBlank(s[..|s| - 1][n..])
    ensures IsBlank(s[n..])
  {
    assert s[n..] == s[..|s| - 1][n..] + [s[|s| - 1]];
    BlankConcat(s[..|s| - 1][n..], [s[|s| - 1]]);
  }

  /** `s.lstrip()`: drops the leading whitespace and nothing else. */
  function TrimLeft(s: string): (r: string)
    ensures |r| <= |s| && r == s[|s| - |r|..]
    ensures IsBlank(s[..|s| - |r|])
    ensures r != [] ==> !IsSpace(r[0])
    decreases |s|
  {
    if s != [] && IsSpace(s[0]) then
      var r := TrimLeft(s[1..]);
      BlankPrefixStep(s, |s| - |r|);
      r
    else s
  }

  /** `s.rstrip()`: drops the trailing whitespace and nothing else. */
  function TrimRight(s: string): (r: string)
    ensures |r| <= |s| && r == s[..|r|]
    ensures IsBlank(s[|r|..])
    ensures r != [] ==> !IsSpace(r[|r| - 1])
    decreases |s|
  {
    if s != [] && IsSpace(s[|s| - 1]) then
      var r := TrimRight(s[..|s| - 1]);
      BlankSuffixStep(s, |r|);
      r
    else s
  }

  /** `s.strip()`: the part of `s` left once its leading and trailing
      whitespace is cut off. It is empty exactly when `s` is blank, and
      otherwise neither of its ends is whitespace. */
  function Strip(s: string): (r: string)
    ensures |r| <= |s|
    ensures exists i, j :: CutsBlankEnds(s, i, j, r)
    ensures r == [] <==> IsBlank(s)
    ensures NoEdgeSpace(r)
  {
    var left := TrimLeft(s);
    var r := TrimRight(left);
    assert r != [] ==> r[0] == left[0];
    CutsOfTrimmedEnds(s, left, r);
    r
  }

  /** Cutting a blank prefix off `s`, leaving `left`, and then a blank
      suffix off `left`, leaving `r`, cuts blank ends off `s`; and `r`
      keeps no character of `s` only when `s` is blank throughout. */
  lemma CutsOfTrimmedEnds(s: string, left: string, r: string)
    requires |left| <= |s| && left == s[|s| - |left|..] && IsBlank(s[..|s| - |left|])
    requires |r| <= |left| && r == left[..|r|] && IsBlank(left[|r|..])
    requires r != [] ==> !IsSpace(r[|r| - 1])
    ensures CutsBlankEnds(s, |s| - |left|, |s| - |left| + |r|, r)
    ensures r == [] <==> IsBlank(s)
  {
    var i := |s| - |left|;
    var j := i + |r|;
    assert r == s[i..j];
    assert s[j..] == left[|r|..];
    if r == [] {
      assert s == s[..i] + s[j..];
      BlankConcat(s[..i], s[j..]);
    }
  }

  /** `r` is `s[i..j]`, and what lies before `i` and after `j` is blank. */
  predicate CutsBlankEnds(s: string, i: int, j: int, r: string) {
    0 <= i <= j <= |s| && r == s[i..j] && IsBlank(s[..i]) && IsBlank(s[j..])
  }

  /** A string whose ends are not whitespace is its own strip. */
  lemma {:induction false} StripKeepsTrimmed(s: string)
    requires NoEdgeSpace(s)
    ensures Strip(s) == s
  {
    if s != [] {
      assert TrimLeft(s) == s;
      assert TrimRight(s) == s;
    }
  }

  /** Stripping twice is stripping once. */
  lemma StripIdempotent(s: string)
    ensures Strip(Strip(s)) == Strip(s)
  {
    StripKeepsTrimmed(Strip(s));
  }

  /** Python's `" ".join(parts)`: the parts in order, one space between
      consecutive parts. */
  function JoinSpace(parts: seq<string>): (r: string)
    decreases |parts|
  {
    if parts == [] then ""
    else if |parts| == 1 then parts[0]
    else parts[0] + " " + JoinSpace(parts[1..])
  }

  lemma BlankConcat(a: string, b: string)
    ensures IsBlank(a + b) <==> IsBlank(a) && IsBlank(b)
  {
    if IsBlank(a) && IsBlank(b) {
      forall i | 0 <= i < |a + b| ensures IsSpace((a + b)[i]) {
        if i >= |a| { assert (a + b)[i] == b[i - |a|]; }
      }
    }
    if IsBlank(a + b) {
      forall i | 0 <= i < |b| ensures IsSpace(b[i]) {
        assert (a + b)[|a| + i] == b[i];
      }
      forall i | 0 <= i < |a| ensures IsSpace(a[i]) {
        assert (a + b)[i] == a[i];
      }
    }
  }

  /** A space-joined string is blank exactly when every part is blank:
      the separators are whitespace and add nothing else. */
  lemma {:induction false} JoinBlank(parts: seq<string>)
    ensures IsBlank(JoinSpace(parts)) <==> forall i :: 0 <= i < |parts| ==> IsBlank(parts[i])
    decreases |parts|
  {
    if |parts| > 1 {
      JoinBlank(parts[1..]);
      BlankConcat(parts[0], " ");
      BlankConcat(parts[0] + " ", JoinSpace(parts[1..]));
      assert forall i :: 1 <= i < |parts| ==> parts[i] == parts[1..][i - 1];
    }
  }

  /** Python's `s.startswith(prefix)`. */
  predicate StartsWith(s: string, prefix: string) {
    |prefix| <= |s| && s[..|prefix|] == prefix
  }

  predicate IsDigit(c: char) {
    '0' as int <= c as int <= '9' as int
  }

  function DigitChar(d: nat): (c: char)
    requires d < 10
    ensures IsDigit(c) && (c as int) - ('0' as int) == d
  {
    ('0' as int + d) as char
  }

  /** The decimal rendering of a natural number, as `str(n)` or an
      f-string gives it: one or more digits, no sign and no leading zero. */
  function NatToString(n: nat): (r: string)
    ensures r != [] && forall i :: 0 <= i < |r| ==> IsDigit(r[i])
    ensures |r| > 1 ==> r[0] != '0'
    decreases n
  {
    if n < 10 then [DigitChar(n)]
    else NatToString(n / 10) + [DigitChar(n % 10)]
  }

  /** The value of a string of decimal digits. */
  function DigitsValue(s: string): nat
    requires forall i :: 0 <= i < |s| ==> IsDigit(s[i])
    decreases |s|
  {
    if s == [] then 0
    else
      assert IsDigit(s[|s| - 1]);
      10 * DigitsValue(s[..|s| - 1]) + ((s[|s| - 1] as int) - ('0' as int))
  }

  /** Reading back the decimal rendering gives the number. */
  lemma {:induction false} NatToStringRoundTrip(n: nat)
    ensures DigitsValue(NatToString(n)) == n
    decreases n
  {
    if n >= 10 {
      NatToStringRoundTrip(n / 10);
      var s := NatToString(n);
      assert s[..|s| - 1] == NatToString(n / 10);
    }
  }

  /** The rendering of an `int` in an f-string: a minus sign for negative
      values, then the digits of the magnitude. */
  function IntToString(i: int): (r: string)
    ensures r != []
    ensures (r[0] == '-') <==> i < 0
    ensures i < 0 ==> r[1..] == NatToString(-i)
    ensures i >= 0 ==> r == NatToString(i)
  {
    if i < 0 then "-" + NatToString(-i) else NatToString(i)
  }

  /** The first index at or after `from` where `c` occurs in `s`, if any. */
  function IndexOf(s: string, c: char, from: nat): (r: Option<nat>)
    ensures r.Some? ==> from <= r.value < |s| && s[r.value] == c
    ensures r.Some? ==> forall k :: from <= k < r.value ==> s[k] != c
    ensures r.None? ==> forall k :: from <= k < |s| ==> s[k] != c
    decreases |s| - from
  {
    if from >= |s| then None
    else if s[from] == c then Some(from)
    else IndexOf(s, c, from + 1)
  }
}
