/** Decimal rendering of integers and first-occurrence string search and replace,
    the small pieces of JavaScript string behaviour the rest of the model relies on:
    template-literal interpolation of a number, `padStart(2, '0')`, `endsWith` and
    `String.prototype.replace` with a string pattern (which replaces only the first match). */
module Text {

  predicate IsDigit(c: char) {
    '0' <= c <= '9'
  }

  function DigitChar(d: nat): (c: char)
    requires d < 10
    ensures IsDigit(c) && DigitValue(c) == d
  {
    ['0', '1', '2', '3', '4', '5', '6', '7', '8', '9'][d]
  }

  function DigitValue(c: char): nat
    requires IsDigit(c)
  {
    (c as int - '0' as int) as nat
  }

  /** Decimal digits of n, most significant first, no leading zeros. */
  function NatToString(n: nat): (s: string)
    ensures |s| >= 1
    ensures forall i :: 0 <= i < |s| ==> IsDigit(s[i])
    decreases n
  {
    if n < 10 then [DigitChar(n)] else NatToString(n / 10) + [DigitChar(n % 10)]
  }

  /** What JavaScript prints for an integral number: a leading '-' for negatives. */
  function IntToString(n: int): string {
    if n < 0 then "-" + NatToString(-n) else NatToString(n)
  }

  /** Reads a string of decimal digits. */
  function ParseNat(s: string): nat
    requires forall i :: 0 <= i < |s| ==> IsDigit(s[i])
  {
    if |s| == 0 then 0 else ParseNat(s[..|s| - 1]) * 10 + DigitValue(s[|s| - 1])
  }

  predicate IsIntText(s: string) {
    if |s| > 0 && s[0] == '-' then forall i :: 1 <= i < |s| ==> IsDigit(s[i])
    else forall i :: 0 <= i < |s| ==> IsDigit(s[i])
  }

  function ParseInt(s: string): int
    requires IsIntText(s)
  {
    if |s| > 0 && s[0] == '-' then -(ParseNat(s[1..]) as int) else ParseNat(s)
  }

  lemma {:induction false} ParseNatToString(n: nat)
    ensures ParseNat(NatToString(n)) == n
    decreases n
  {
    var s := NatToString(n);
    if n >= 10 {
      ParseNatToString(n / 10);
      assert s[..|s| - 1] == NatToString(n / 10);
    }
  }

  /** Reading back what IntToString printed gives the number again. */
  lemma ParseIntToString(n: int)
    ensures IsIntText(IntToString(n))
    ensures ParseInt(IntToString(n)) == n
  {
    if n < 0 {
      ParseNegativeText(-n);
    } else {
      ParseNatText(n);
    }
  }

  lemma ParseNegativeText(m: nat)
    ensures IsIntText("-" + NatToString(m)) && ParseInt("-" + NatToString(m)) == -(m as int)
  {
    ParseNegative(NatToString(m));
    ParseNatToString(m);
  }

  lemma ParseNatText(m: nat)
    ensures IsIntText(NatToString(m)) && ParseInt(NatToString(m)) == m
  {
    ParseDigits(NatToString(m));
    ParseNatToString(m);
  }

  /** A digit string reads as a natural number. */
  lemma ParseDigits(digits: string)
    requires |digits| >= 1 && forall i :: 0 <= i < |digits| ==> IsDigit(digits[i])
    ensures IsIntText(digits)
    ensures ParseInt(digits) == ParseNat(digits)
  {
    assert digits[0] != '-';
  }

  /** A minus sign before a digit string reads as the negated number. */
  lemma ParseNegative(digits: string)
    requires |digits| >= 1 && forall i :: 0 <= i < |digits| ==> IsDigit(digits[i])
    ensures IsIntText("-" + digits)
    ensures ParseInt("-" + digits) == -(ParseNat(digits) as int)
  {
    var s := "-" + digits;
    assert s[0] == '-' && s[1..] == digits;
    forall i | 1 <= i < |s| ensures IsDigit(s[i]) {
      assert s[i] == digits[i - 1];
    }
  }

  /** Distinct numbers print differently. */
  lemma IntToStringInjective(m: int, n: int)
    ensures IntToString(m) == IntToString(n) ==> m == n
  {
    ParseIntToString(m);
    ParseIntToString(n);
  }

  /** `s.padStart(2, '0')` for the decimal text of n. */
  function PadTwo(n: nat): string {
    if n < 10 then "0" + NatToString(n) else NatToString(n)
  }

  /** Below 100 the padded text is exactly two digits that read back as n. */
  lemma PadTwoDigits(n: nat)
    requires n < 100
    ensures var s := PadTwo(n); |s| == 2 && IsDigit(s[0]) && IsDigit(s[1])
    ensures var s := PadTwo(n); DigitValue(s[0]) * 10 + DigitValue(s[1]) == n
  {
    if n >= 10 {
      assert NatToString(n / 10) == [DigitChar(n / 10)];
      assert NatToString(n) == [DigitChar(n / 10), DigitChar(n % 10)];
    }
  }

  predicate OccursAt(s: string, pat: string, i: nat) {
    i + |pat| <= |s| && s[i..i + |pat|] == pat
  }

  /** The first position where pat occurs in s, as `indexOf` finds it. */
  function FirstIndex(s: string, pat: string, from: nat := 0): (r: int)
    ensures r == -1 || (from <= r && OccursAt(s, pat, r))
    ensures forall k :: from <= k && (r == -1 || k < r) ==> !OccursAt(s, pat, k)
    decreases |s| - from
  {
    if from + |pat| > |s| then -1
    else if s[from..from + |pat|] == pat then from
    else FirstIndex(s, pat, from + 1)
  }

  /** `s.replace(pat, rep)` with a string pattern: only the first occurrence is replaced. */
  function ReplaceFirst(s: string, pat: string, rep: string): (r: string)
    ensures FirstIndex(s, pat) == -1 ==> r == s
    ensures FirstIndex(s, pat) >= 0 ==>
      var i := FirstIndex(s, pat);
      |r| == |s| - |pat| + |rep| && r[..i] == s[..i] && r[i..i + |rep|] == rep
      && r[i + |rep|..] == s[i + |pat|..]
  {
    var i := FirstIndex(s, pat);
    if i < 0 then s else s[..i] + rep + s[i + |pat|..]
  }

  predicate EndsWith(s: string, suffix: string) {
    |suffix| <= |s| && s[|s| - |suffix|..] == suffix
  }
}
