/** The two string operations the widgets' URL and label helpers rely on:
    `String.prototype.replace` with a string pattern (first occurrence only)
    and the decimal rendering of an integer in a template literal. */
module Text {

  /** `pat` occurs in `s` starting at index j. */
  predicate MatchesAt(s: string, pat: string, j: int) {
    0 <= j && j + |pat| <= |s| && s[j..j + |pat|] == pat
  }

  /** The first occurrence of `pat` in `s` starts at index i. */
  predicate FirstMatchAt(s: string, pat: string, i: int) {
    MatchesAt(s, pat, i) && forall j :: 0 <= j < i ==> !MatchesAt(s, pat, j)
  }

  /** `String.prototype.indexOf`: the first index at which `pat` occurs in `s`,
      or -1 when it occurs nowhere. */
  function IndexOf(s: string, pat: string): (i: int)
    ensures -1 <= i
    ensures i >= 0 ==> MatchesAt(s, pat, i)
    ensures forall j :: 0 <= j && (i < 0 || j < i) ==> !MatchesAt(s, pat, j)
    decreases |s|
  {
    if |pat| > |s| then -1
    else if s[..|pat|] == pat then 0
    else
      var k := IndexOf(s[1..], pat);
      assert forall j :: 0 < j ==> (MatchesAt(s, pat, j) <==> MatchesAt(s[1..], pat, j - 1)) by {
        forall j | 0 < j ensures MatchesAt(s, pat, j) <==> MatchesAt(s[1..], pat, j - 1) {
          if j + |pat| <= |s| {
            assert s[1..][j - 1..j - 1 + |pat|] == s[j..j + |pat|];
          }
        }
      }
      if k < 0 then -1 else k + 1
  }

  /** `s.replace(pat, rep)` for a string pattern: only the first occurrence is
      replaced, and `s` comes back unchanged when `pat` does not occur. */
  function ReplaceFirst(s: string, pat: string, rep: string): (r: string)
    ensures (forall j :: 0 <= j ==> !MatchesAt(s, pat, j)) ==> r == s
    ensures forall i :: FirstMatchAt(s, pat, i) ==> r == s[..i] + rep + s[i + |pat|..]
  {
    var i := IndexOf(s, pat);
    if i < 0 then s else s[..i] + rep + s[i + |pat|..]
  }

  /** When nothing before the first `pat` can start an occurrence of it, the
      replacement lands exactly there and the rest is kept. */
  lemma {:induction false} ReplaceFirstAfter(a: string, pat: string, b: string, rep: string)
    requires |pat| > 0 && pat[0] !in a
    ensures ReplaceFirst(a + pat + b, pat, rep) == a + rep + b
  {
    var s := a + pat + b;
    assert s[|a|..|a| + |pat|] == pat;
    assert MatchesAt(s, pat, |a|);
    var i := IndexOf(s, pat);
    assert i == |a|;
    assert s[..|a|] == a;
    assert s[|a| + |pat|..] == b;
  }

  /** The character for a digit 0..9. */
  function DigitChar(d: int): (c: char)
    requires 0 <= d < 10
    ensures '0' <= c <= '9'
  {
    (('0' as int) + d) as char
  }

  /** The value of a string of decimal digits (the reference reading of a number). */
  function DecimalValue(s: string): int
    requires forall k :: 0 <= k < |s| ==> '0' <= s[k] <= '9'
  {
    if s == [] then 0 else 10 * DecimalValue(s[..|s| - 1]) + (s[|s| - 1] as int - '0' as int)
  }

  /** The decimal rendering of a natural number, without leading zeros. */
  function NatToString(n: nat): (s: string)
    ensures |s| >= 1
    ensures forall k :: 0 <= k < |s| ==> '0' <= s[k] <= '9'
    ensures |s| > 1 ==> s[0] != '0'
  {
    if n < 10 then [DigitChar(n)] else NatToString(n / 10) + [DigitChar(n % 10)]
  }

  /** Reading back the rendering of n gives n. */
  lemma {:induction false} NatToStringRoundTrip(n: nat)
    ensures DecimalValue(NatToString(n)) == n
  {
    var s := NatToString(n);
    if n >= 10 {
      NatToStringRoundTrip(n / 10);
      assert s[..|s| - 1] == NatToString(n / 10);
    }
  }

  /** A number's rendering in a template literal: a minus sign for negatives. */
  function IntToString(n: int): (s: string)
    ensures |s| >= 1 && ((s[0] == '-') <==> n < 0)
    ensures var digits := if n < 0 then s[1..] else s;
      && |digits| >= 1
      && (forall k :: 0 <= k < |digits| ==> '0' <= digits[k] <= '9')
      && (|digits| > 1 ==> digits[0] != '0')
      && DecimalValue(digits) == Abs(n)
  {
    NatToStringRoundTrip(Abs(n));
    if n < 0 then "-" + NatToString(-n) else NatToString(n)
  }

  function Abs(n: int): nat {
    if n < 0 then -n else n
  }
}
