/** The Python string builtins the helper layer relies on: `find`, `rfind`, `strip` and `str(int)`. */
module Text {

  /** Python's `str.isspace` for one character: the Unicode white-space characters together with
      the four ASCII information separators 0x1C to 0x1F. */
  predicate IsSpace(c: char) {
    || ('\t' <= c <= '\r')
    || ('\U{1C}' <= c <= ' ')
    || c == '\U{85}' || c == '\U{A0}' || c == '\U{1680}'
    || ('\U{2000}' <= c <= '\U{200A}')
    || c == '\U{2028}' || c == '\U{2029}' || c == '\U{202F}' || c == '\U{205F}' || c == '\U{3000}'
  }

  /** The number of white-space characters `s` starts with. */
  function LeadingSpace(s: string): (n: nat)
    ensures n <= |s|
    ensures forall i {:trigger IsSpace(s[i])} :: 0 <= i < n ==> IsSpace(s[i])
    ensures n == |s| || !IsSpace(s[n])
  {
    if s != [] && IsSpace(s[0]) then 1 + LeadingSpace(s[1..]) else 0
  }

  /** The number of white-space characters `s` ends with. */
  function TrailingSpace(s: string): (n: nat)
    ensures n <= |s|
    ensures forall i {:trigger IsSpace(s[i])} :: |s| - n <= i < |s| ==> IsSpace(s[i])
    ensures n == |s| || !IsSpace(s[|s| - 1 - n])
  {
    if s != [] && IsSpace(s[|s| - 1]) then 1 + TrailingSpace(s[..|s| - 1]) else 0
  }

  /** Python's `s.strip()`: `s` without its leading and trailing white space. */
  function Strip(s: string): (r: string)
    ensures LeadingSpace(s) + |r| <= |s|
    ensures r == s[LeadingSpace(s)..LeadingSpace(s) + |r|]
    ensures forall i {:trigger IsSpace(s[i])} :: LeadingSpace(s) + |r| <= i < |s| ==> IsSpace(s[i])
    ensures r == [] || (!IsSpace(r[0]) && !IsSpace(r[|r| - 1]))
    ensures s == [] || (!IsSpace(s[0]) && !IsSpace(s[|s| - 1])) ==> r == s
  {
    var t := s[LeadingSpace(s)..];
    t[..|t| - TrailingSpace(t)]
  }

  /** `pat` occurs in `s` starting at index `k`. */
  predicate OccursAt(s: string, pat: string, k: int) {
    0 <= k && k + |pat| <= |s| && s[k..k + |pat|] == pat
  }

  /** A one-character pattern occurs exactly where that character stands. */
  lemma OccursAtChar(s: string, c: char, k: int)
    ensures OccursAt(s, [c], k) <==> 0 <= k < |s| && s[k] == c
  {
    if 0 <= k < |s| {
      assert s[k..k + 1] == [s[k]];
    }
  }

  /** An occurrence starts with the pattern's first character. */
  lemma OccursAtHead(s: string, pat: string, k: int)
    requires pat != [] && OccursAt(s, pat, k)
    ensures k < |s| && s[k] == pat[0]
  {
    assert s[k..k + |pat|][0] == s[k];
  }

  /** An occurrence in the suffix `s[i..]` is an occurrence in `s`, `i` places further on. */
  lemma OccursInSuffix(s: string, i: int, pat: string)
    requires 0 <= i <= |s|
    ensures forall k :: 0 <= k ==> (OccursAt(s[i..], pat, k) <==> OccursAt(s, pat, i + k))
  {
    forall k | 0 <= k
      ensures OccursAt(s[i..], pat, k) <==> OccursAt(s, pat, i + k)
    {
      if k + |pat| <= |s| - i {
        assert s[i..][k..k + |pat|] == s[i + k..i + k + |pat|];
      }
    }
  }

  /** Python's `s.find(pat)`: the first index at which `pat` occurs in `s`, or -1. */
  function Find(s: string, pat: string): (r: int)
    ensures -1 <= r <= |s|
    ensures r >= 0 ==> OccursAt(s, pat, r)
    ensures forall k :: 0 <= k && (r < 0 || k < r) ==> !OccursAt(s, pat, k)
  {
    FindFrom(s, pat, 0)
  }

  /** The first index at or after `i` at which `pat` occurs in `s`, or -1. */
  function FindFrom(s: string, pat: string, i: nat): (r: int)
    requires i <= |s|
    ensures r == -1 || (i <= r <= |s| && OccursAt(s, pat, r))
    ensures forall k :: i <= k && (r < 0 || k < r) ==> !OccursAt(s, pat, k)
    decreases |s| - i
  {
    if OccursAt(s, pat, i) then i
    else if i == |s| then -1
    else FindFrom(s, pat, i + 1)
  }

  /** Python's `s.rfind(pat)`: the last index at which `pat` occurs in `s`, or -1. */
  function RFind(s: string, pat: string): (r: int)
    ensures -1 <= r <= |s|
    ensures r >= 0 ==> OccursAt(s, pat, r)
    ensures forall k :: r < k ==> !OccursAt(s, pat, k)
  {
    RFindUpTo(s, pat, |s|)
  }

  /** The last index at or before `i` at which `pat` occurs in `s`, or -1. */
  function RFindUpTo(s: string, pat: string, i: nat): (r: int)
    requires i <= |s|
    ensures -1 <= r <= i
    ensures r >= 0 ==> OccursAt(s, pat, r)
    ensures forall k :: r < k <= i ==> !OccursAt(s, pat, k)
    decreases i
  {
    if OccursAt(s, pat, i) then i
    else if i == 0 then -1
    else RFindUpTo(s, pat, i - 1)
  }

  predicate IsDigits(s: string) {
    forall i :: 0 <= i < |s| ==> '0' <= s[i] <= '9'
  }

  /** The number a string of decimal digits denotes. */
  function DecimalValue(s: string): nat
    requires IsDigits(s)
  {
    if s == [] then 0 else 10 * DecimalValue(s[..|s| - 1]) + (s[|s| - 1] as int - '0' as int)
  }

  function DigitChar(d: nat): (c: char)
    requires d < 10
    ensures '0' <= c <= '9' && c as int - '0' as int == d
  {
    ('0' as int + d) as char
  }

  /** Python's `str(n)` for a non-negative integer: its decimal digits without leading zeros. */
  function NatToString(n: nat): (s: string)
    ensures s != [] && IsDigits(s)
    ensures DecimalValue(s) == n
    ensures s[0] == '0' ==> s == "0"
  {
    if n < 10 then
      [DigitChar(n)]
    else
      var prefix := NatToString(n / 10);
      var s := prefix + [DigitChar(n % 10)];
      assert s[..|s| - 1] == prefix;
      s
  }

  /** Python's `str(n)` for any integer. */
  function IntToString(n: int): (s: string)
    ensures n >= 0 ==> s == NatToString(n)
    ensures n < 0 ==> s == "-" + NatToString(-n)
  {
    if n >= 0 then NatToString(n) else "-" + NatToString(-n)
  }
}
