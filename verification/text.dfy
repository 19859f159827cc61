/**
 * The few pieces of Python string behaviour the server relies on:
 * `str.strip()`, `str.startswith`, `str.replace(pat, repl, 1)` and `str(int)`.
 */
module Text {
  import opened Wrappers

  /** Python's `str.isspace` for one character, by code point. */
  predicate IsSpace(c: char) {
    var n := c as int;
    || n == 0x20 || 0x09 <= n <= 0x0D || 0x1C <= n <= 0x1F
    || n == 0x85 || n == 0xA0 || n == 0x1680 || 0x2000 <= n <= 0x200A
    || n == 0x2028 || n == 0x2029 || n == 0x202F || n == 0x205F || n == 0x3000
  }

  /** Every character of `s` from index `lo` up to (not including) `hi` is whitespace. */
  predicate SpaceBetween(s: string, lo: nat, hi: nat)
    requires lo <= hi <= |s|
  {
    forall k :: lo <= k < hi ==> IsSpace(s[k])
  }

  predicate AllSpace(s: string) {
    SpaceBetween(s, 0, |s|)
  }

  /** The first index at or after `from` that is not whitespace, or `|s|`. */
  function SkipSpaces(s: string, from: nat): (b: nat)
    requires from <= |s|
    ensures from <= b <= |s|
    ensures SpaceBetween(s, from, b)
    ensures b < |s| ==> !IsSpace(s[b])
    decreases |s| - from
  {
    if from < |s| && IsSpace(s[from]) then SkipSpaces(s, from + 1) else from
  }

  /** The index just past the last non-whitespace character before `upto`, or 0. */
  function SkipSpacesBack(s: string, upto: nat): (e: nat)
    requires upto <= |s|
    ensures e <= upto
    ensures SpaceBetween(s, e, upto)
    ensures e > 0 ==> !IsSpace(s[e - 1])
    decreases upto
  {
    if upto > 0 && IsSpace(s[upto - 1]) then SkipSpacesBack(s, upto - 1) else upto
  }

  /** `r` is the slice of `s` at `i`, with only whitespace around it. */
  predicate SpaceAround(s: string, r: string, i: nat) {
    && i + |r| <= |s|
    && r == s[i..i + |r|]
    && SpaceBetween(s, 0, i)
    && SpaceBetween(s, i + |r|, |s|)
  }

  /** Python's `s.strip()`: the longest slice with no whitespace at either end. */
  function Strip(s: string): (r: string)
    ensures |r| <= |s|
    ensures r == [] <==> AllSpace(s)
    ensures r != [] ==> !IsSpace(r[0]) && !IsSpace(r[|r| - 1])
    ensures exists i :: SpaceAround(s, r, i)
  {
    var b := SkipSpaces(s, 0);
    if b == |s| then
      assert SpaceAround(s, [], |s|);
      []
    else
      var e := SkipSpacesBack(s, |s|);
      assert !IsSpace(s[b]);
      assert b < e;
      var r := s[b..e];
      assert SpaceAround(s, r, b);
      assert !AllSpace(s) by { assert !IsSpace(s[b]); }
      r
  }

  predicate StartsWith(s: string, prefix: string) {
    |prefix| <= |s| && s[..|prefix|] == prefix
  }

  /** `pat` occurs in `s` at index `k`. */
  predicate OccursAt(s: string, pat: string, k: nat) {
    k + |pat| <= |s| && s[k..k + |pat|] == pat
  }

  /** First index at or after `from` where `pat` occurs in `s`, if any. */
  function FindFrom(s: string, pat: string, from: nat): (r: Option<nat>)
    requires from <= |s|
    ensures r.Some? ==> from <= r.value && OccursAt(s, pat, r.value)
    ensures r.Some? ==> forall k :: from <= k < r.value ==> !OccursAt(s, pat, k)
    ensures r.None? ==> forall k :: from <= k ==> !OccursAt(s, pat, k)
    decreases |s| - from
  {
    if from + |pat| > |s| then None
    else if OccursAt(s, pat, from) then Some(from)
    else if from == |s| then None
    else FindFrom(s, pat, from + 1)
  }

  /** Python's `s.replace(old, new, 1)`: replace the first occurrence only. */
  function ReplaceFirst(s: string, pat: string, repl: string): string {
    match FindFrom(s, pat, 0)
    case None => s
    case Some(i) => s[..i] + repl + s[i + |pat|..]
  }

  /** Removing a prefix with `replace(prefix, "", 1)` is dropping it from the front. */
  lemma ReplaceFirstOfPrefix(s: string, prefix: string)
    requires StartsWith(s, prefix)
    ensures ReplaceFirst(s, prefix, "") == s[|prefix|..]
    ensures prefix + ReplaceFirst(s, prefix, "") == s
  {
    assert FindFrom(s, prefix, 0) == Some(0);
    assert s == s[..|prefix|] + s[|prefix|..];
  }

  predicate IsDigit(c: char) {
    '0' <= c <= '9'
  }

  predicate AllDigits(s: string) {
    forall i :: 0 <= i < |s| ==> IsDigit(s[i])
  }

  function DigitChar(d: nat): (c: char)
    requires d < 10
    ensures IsDigit(c) && c as int - '0' as int == d
  {
    (d + '0' as int) as char
  }

  /** Decimal digits of `n` as Python's `str` writes them: no leading zero. */
  function NatToString(n: nat): (r: string)
    ensures |r| >= 1 && AllDigits(r)
    ensures r[0] == '0' ==> n == 0
    decreases n
  {
    if n < 10 then [DigitChar(n)]
    else NatToString(n / 10) + [DigitChar(n % 10)]
  }

  /** Python's `str(n)` for an integer: a minus sign, then the digits of `|n|`. */
  function IntToString(n: int): (r: string)
    ensures |r| >= 1
    ensures n < 0 <==> r[0] == '-'
  {
    if n < 0 then "-" + NatToString(-n) else NatToString(n)
  }

  function ParseNat(s: string): nat
    requires AllDigits(s)
    decreases |s|
  {
    if s == [] then 0
    else ParseNat(s[..|s| - 1]) * 10 + (s[|s| - 1] as int - '0' as int)
  }

  /** Python's `int(s)` restricted to what `str` produces: optional `-`, then digits. */
  function ParseInt(s: string): Option<int> {
    if |s| > 1 && s[0] == '-' && AllDigits(s[1..]) then Some(0 - ParseNat(s[1..]))
    else if |s| > 0 && AllDigits(s) then Some(ParseNat(s))
    else None
  }

  lemma {:induction false} NatToStringRoundTrip(n: nat)
    ensures ParseNat(NatToString(n)) == n
    decreases n
  {
    if n >= 10 {
      var r := NatToString(n);
      var front := NatToString(n / 10);
      assert r[..|r| - 1] == front;
      NatToStringRoundTrip(n / 10);
    }
  }

  /** `int(str(n)) == n`: the decimal text of an exit code names that code. */
  lemma IntToStringRoundTrip(n: int)
    ensures ParseInt(IntToString(n)) == Some(n)
  {
    var s := IntToString(n);
    if n < 0 {
      var digits := NatToString(-n);
      NatToStringRoundTrip(-n);
      assert s == "-" + digits;
      assert s[1..] == digits;
      assert |s| > 1 && s[0] == '-' && AllDigits(s[1..]);
    } else {
      NatToStringRoundTrip(n);
      assert IsDigit(s[0]);
      assert !(|s| > 1 && s[0] == '-');
    }
  }
}
