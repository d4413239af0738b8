/**
 * The two string operations the client relies on: `strings.Replace(s, old, new, 1)`
 * (first-occurrence replacement) and `strconv.Itoa` (decimal rendering), together with
 * a decimal parser that serves as the inverse of the rendering.
 */
module Text {
  import opened Wrappers

  /** `pat` occurs in `s` starting at index `i`. */
  predicate OccursAt(s: string, pat: string, i: nat) {
    i + |pat| <= |s| && s[i..i + |pat|] == pat
  }

  lemma OccursShift(s: string, pat: string, j: nat)
    requires |s| > 0
    ensures OccursAt(s[1..], pat, j) <==> OccursAt(s, pat, j + 1)
  {
    if j + 1 + |pat| <= |s| {
      assert s[1..][j..j + |pat|] == s[j + 1..j + 1 + |pat|];
    }
  }

  /** Index of the first occurrence of `pat` in `s`, if any. */
  function IndexOf(s: string, pat: string): (r: Option<nat>)
    ensures r.Some? ==> OccursAt(s, pat, r.value)
    ensures r.Some? ==> forall j :: 0 <= j < r.value ==> !OccursAt(s, pat, j)
    ensures r.None? ==> forall j :: 0 <= j <= |s| ==> !OccursAt(s, pat, j)
    decreases |s|
  {
    if |s| < |pat| then None
    else if s[..|pat|] == pat then Some(0)
    else
      var r' := IndexOf(s[1..], pat);
      assert !OccursAt(s, pat, 0);
      forall j: nat | 1 <= j ensures OccursAt(s, pat, j) <==> OccursAt(s[1..], pat, j - 1) {
        OccursShift(s, pat, j - 1);
      }
      match r'
      case Some(i) => Some(i + 1)
      case None => None
  }

  /**
   * `strings.Replace(s, pat, rep, 1)`: the first occurrence of `pat` is replaced by
   * `rep`; without an occurrence `s` is returned unchanged. An empty `pat` matches at
   * the start, as in Go.
   */
  function ReplaceFirst(s: string, pat: string, rep: string): (r: string)
    ensures (forall j :: 0 <= j <= |s| ==> !OccursAt(s, pat, j)) ==> r == s
    ensures forall i: nat {:trigger OccursAt(s, pat, i)} ::
              OccursAt(s, pat, i) && (forall j :: 0 <= j < i ==> !OccursAt(s, pat, j)) ==>
                r == s[..i] + rep + s[i + |pat|..]
  {
    match IndexOf(s, pat)
    case None => s
    case Some(k) => s[..k] + rep + s[k + |pat|..]
  }

  /** Replacing an occurrence keeps everything before it and everything after it verbatim. */
  lemma ReplaceFirstShape(s: string, pat: string, rep: string, i: nat)
    requires OccursAt(s, pat, i) && forall j :: 0 <= j < i ==> !OccursAt(s, pat, j)
    ensures var r := ReplaceFirst(s, pat, rep);
      |r| == |s| - |pat| + |rep| &&
      r[..i] == s[..i] && r[i..i + |rep|] == rep && r[i + |rep|..] == s[i + |pat|..]
  {
    var r := ReplaceFirst(s, pat, rep);
    assert r == s[..i] + rep + s[i + |pat|..];
    assert r[..i] == s[..i];
    assert r[i..i + |rep|] == rep;
  }

  /** When no character of `pre` starts `pat`, the first occurrence in `pre + pat + post` is right after `pre`. */
  lemma ReplaceFirstAfterFreePrefix(pre: string, pat: string, post: string, rep: string)
    requires |pat| > 0 && forall j :: 0 <= j < |pre| ==> pre[j] != pat[0]
    ensures ReplaceFirst(pre + pat + post, pat, rep) == pre + rep + post
  {
    var s := pre + pat + post;
    assert OccursAt(s, pat, |pre|) by { assert s[|pre|..|pre| + |pat|] == pat; }
    forall j | 0 <= j < |pre| ensures !OccursAt(s, pat, j) {
      assert s[j] == pre[j];
    }
    assert s[..|pre|] == pre && s[|pre| + |pat|..] == post;
  }

  predicate IsDigit(c: char) {
    '0' <= c <= '9'
  }

  predicate IsDigits(s: string) {
    forall i :: 0 <= i < |s| ==> IsDigit(s[i])
  }

  /** A non-empty run of digits without a leading zero, except "0" itself. */
  predicate IsCanonicalNumeral(s: string) {
    |s| > 0 && IsDigits(s) && (s[0] == '0' ==> |s| == 1)
  }

  function DigitValue(c: char): nat
    requires IsDigit(c)
  {
    c as int - '0' as int
  }

  function DigitChar(d: nat): (c: char)
    requires d < 10
    ensures IsDigit(c) && DigitValue(c) == d
  {
    ('0' as int + d) as char
  }

  /** The number a run of decimal digits denotes, most significant digit first. */
  function DecimalValue(s: string): nat
    requires IsDigits(s)
    decreases |s|
  {
    if s == [] then 0 else 10 * DecimalValue(s[..|s| - 1]) + DigitValue(s[|s| - 1])
  }

  /** Decimal rendering of a natural number. */
  function NatToDecimal(n: nat): (r: string)
    ensures IsCanonicalNumeral(r)
    ensures DecimalValue(r) == n
    decreases n
  {
    if n < 10 then [DigitChar(n)]
    else
      var high := NatToDecimal(n / 10);
      var r := high + [DigitChar(n % 10)];
      assert r[..|r| - 1] == high;
      assert high[0] != '0';
      r
  }

  /** Reads back an optional '-' followed by digits; the reference inverse of `Itoa`. */
  function ParseDecimal(s: string): Option<int> {
    if |s| > 0 && s[0] == '-' then
      if |s| > 1 && IsDigits(s[1..]) then
        var magnitude: int := DecimalValue(s[1..]);
        Some(-magnitude)
      else None
    else if |s| > 0 && IsDigits(s) then Some(DecimalValue(s))
    else None
  }

  /** `strconv.Itoa`: canonical decimal digits, preceded by '-' exactly for negative numbers. */
  function Itoa(n: int): (r: string)
    ensures |r| > 0 && (r[0] == '-' <==> n < 0)
    ensures IsCanonicalNumeral(if n < 0 then r[1..] else r)
    ensures ParseDecimal(r) == Some(n)
  {
    if n < 0 then
      var r := "-" + NatToDecimal(-n);
      assert r[1..] == NatToDecimal(-n);
      r
    else NatToDecimal(n)
  }

  /** Decimal rendering is injective: distinct integers render as distinct strings. */
  lemma ItoaInjective(a: int, b: int)
    ensures Itoa(a) == Itoa(b) <==> a == b
  {
    if Itoa(a) == Itoa(b) {
      assert Some(a) == ParseDecimal(Itoa(a)) == ParseDecimal(Itoa(b)) == Some(b);
    }
  }
}
