/**
 * Character classes and string helpers shared by the forms: the JavaScript
 * `\s` class (which is also the set `String.prototype.trim` strips), `\d`,
 * `trim`, decimal printing and parsing, `padStart`, and the e-mail pattern
 * `\S+@\S+\.\S+` written out as a predicate.
 */
module Text {

  /** JavaScript's `\s`: the ECMAScript WhiteSpace and LineTerminator code points. */
  predicate IsSpace(c: char) {
    c == ' ' || c == '\t' || c == '\n' || c == '\r' || c == '\U{000B}' || c == '\U{000C}'
    || c == '\U{00A0}' || c == '\U{1680}' || ('\U{2000}' <= c <= '\U{200A}')
    || c == '\U{2028}' || c == '\U{2029}' || c == '\U{202F}' || c == '\U{205F}'
    || c == '\U{3000}' || c == '\U{FEFF}'
  }

  /** JavaScript's `\d`: ASCII digits only. */
  predicate IsDigit(c: char) {
    '0' <= c <= '9'
  }

  predicate AllDigits(s: string) {
    forall j :: 0 <= j < |s| ==> IsDigit(s[j])
  }

  predicate AllSpace(s: string) {
    forall j :: 0 <= j < |s| ==> IsSpace(s[j])
  }

  // ---------------------------------------------------------------- trim

  /** Drops leading whitespace. */
  function TrimStart(s: string): (r: string)
    ensures |r| <= |s| && r == s[|s| - |r|..]
    ensures AllSpace(s[..|s| - |r|])
    ensures r == [] || !IsSpace(r[0])
  {
    if s != [] && IsSpace(s[0]) then
      var r := TrimStart(s[1..]);
      assert s[1..][..|s| - 1 - |r|] == s[1..|s| - |r|];
      AllSpaceCons(s, |s| - |r|);
      r
    else s
  }

  /** A whitespace character followed by whitespace is whitespace. */
  lemma AllSpaceCons(s: string, m: nat)
    requires 0 < m <= |s| && IsSpace(s[0]) && AllSpace(s[1..m])
    ensures AllSpace(s[..m])
  {
    forall j | 0 <= j < m ensures IsSpace(s[..m][j]) {
      if j > 0 {
        assert s[..m][j] == s[1..m][j - 1];
      }
    }
  }

  /** Drops trailing whitespace. */
  function TrimEnd(s: string): (r: string)
    ensures |r| <= |s| && r == s[..|r|]
    ensures AllSpace(s[|r|..])
    ensures r == [] || !IsSpace(r[|r| - 1])
  {
    if s != [] && IsSpace(s[|s| - 1]) then
      var t := s[..|s| - 1];
      var r := TrimEnd(t);
      var dropped := s[|r|..];
      assert AllSpace(dropped) by {
        forall j | 0 <= j < |dropped| ensures IsSpace(dropped[j]) {
          if j < |s| - 1 - |r| {
            assert dropped[j] == t[|r|..][j];
          }
        }
      }
      r
    else s
  }

  /** `r` sits in `s` at offset `i`, with only whitespace before and after it. */
  predicate PaddedBy(s: string, r: string, i: int) {
    0 <= i && i + |r| <= |s| && r == s[i..i + |r|] && AllSpace(s[..i]) && AllSpace(s[i + |r|..])
  }

  /**
   * `String.prototype.trim`: a stretch of `s` that neither starts nor ends
   * with whitespace, with only whitespace cut off around it; it starts where
   * the leading whitespace ends.
   */
  function Trim(s: string): (r: string)
    ensures PaddedBy(s, r, |s| - |TrimStart(s)|)
    ensures r == [] || (!IsSpace(r[0]) && !IsSpace(r[|r| - 1]))
  {
    TrimBothPadded(s);
    TrimEnd(TrimStart(s))
  }

  /** Cutting leading, then trailing whitespace leaves a padded stretch of `s`. */
  lemma TrimBothPadded(s: string)
    ensures PaddedBy(s, TrimEnd(TrimStart(s)), |s| - |TrimStart(s)|)
  {
    PaddedCompose(s, TrimStart(s), TrimEnd(TrimStart(s)), |s| - |TrimStart(s)|);
  }

  /** A whitespace-padded prefix of a whitespace-padded suffix of `s` is padded in `s`. */
  lemma PaddedCompose(s: string, t: string, r: string, i: int)
    requires 0 <= i <= |s| && t == s[i..] && AllSpace(s[..i])
    requires |r| <= |t| && r == t[..|r|] && AllSpace(t[|r|..])
    ensures PaddedBy(s, r, i)
  {
    SuffixSlices(s, i, |r|);
  }

  /** Slicing a suffix of `s` is slicing `s` itself, shifted. */
  lemma SuffixSlices(s: string, i: nat, n: nat)
    requires i + n <= |s|
    ensures s[i..][..n] == s[i..i + n] && s[i..][n..] == s[i + n..]
  {
  }

  /** A string trims to the empty string exactly when every character of it is whitespace. */
  lemma TrimEmptyIff(s: string)
    ensures Trim(s) == [] <==> AllSpace(s)
  {
    var r := Trim(s);
    var i := |s| - |TrimStart(s)|;
    if r == [] {
      assert i == |s|;
      assert s[..i] == s;
    } else {
      assert r[0] == s[i];
    }
  }

  // ------------------------------------------------------ decimal numbers

  function DigitChar(d: nat): (c: char)
    requires d < 10
    ensures IsDigit(c) && DigitValue(c) == d
  {
    ('0' as int + d) as char
  }

  function DigitValue(c: char): nat
    requires IsDigit(c)
  {
    c as int - '0' as int
  }

  /** `n.toString()` for a non-negative integer: shortest decimal form, most significant digit first. */
  function NatToString(n: nat): (r: string)
    ensures |r| >= 1 && AllDigits(r)
    ensures n >= 10 ==> r[0] != '0'
    ensures |r| > 1 ==> r[0] != '0'
  {
    if n < 10 then [DigitChar(n)] else NatToString(n / 10) + [DigitChar(n % 10)]
  }

  /** `i.toString()` for any integer. */
  function IntToString(i: int): (r: string)
    ensures i >= 0 ==> AllDigits(r) && ParseNat(r) == i
    ensures i < 0 ==> |r| >= 2 && r[0] == '-' && AllDigits(r[1..]) && ParseNat(r[1..]) == -i
    ensures i >= 0 ==> |r| >= 1 && (|r| > 1 ==> r[0] != '0')
    ensures i < 0 ==> (|r| > 2 ==> r[1] != '0')
  {
    if i < 0 then
      var digits := NatToString(-i);
      ParseNatToString(-i);
      assert ("-" + digits)[1..] == digits;
      "-" + digits
    else
      ParseNatToString(i);
      NatToString(i)
  }

  /** The value of a string of decimal digits (leading zeros allowed). */
  function ParseNat(s: string): nat
    requires AllDigits(s)
  {
    if s == [] then 0 else 10 * ParseNat(s[..|s| - 1]) + DigitValue(s[|s| - 1])
  }

  lemma {:induction false} ParseNatToString(n: nat)
    ensures ParseNat(NatToString(n)) == n
  {
    if n >= 10 {
      var r := NatToString(n);
      assert r[..|r| - 1] == NatToString(n / 10);
      ParseNatToString(n / 10);
    }
  }

  /** Leading zeros do not change the value of a digit string. */
  lemma {:induction false} ParseNatLeadingZero(s: string)
    requires AllDigits(s)
    ensures AllDigits(['0'] + s) && ParseNat(['0'] + s) == ParseNat(s)
  {
    if s != [] {
      assert (['0'] + s)[..|s|] == ['0'] + s[..|s| - 1];
      ParseNatLeadingZero(s[..|s| - 1]);
    }
  }

  function Repeat(c: char, n: nat): (r: string)
    ensures |r| == n && forall j :: 0 <= j < n ==> r[j] == c
  {
    if n == 0 then [] else [c] + Repeat(c, n - 1)
  }

  /** `s.padStart(width, [c])`: left-pads with `c` up to `width` characters; never truncates. */
  function PadStart(s: string, width: nat, c: char): (r: string)
    ensures |r| == if |s| < width then width else |s|
    ensures r[|r| - |s|..] == s
    ensures forall j :: 0 <= j < |r| - |s| ==> r[j] == c
  {
    if |s| < width then Repeat(c, width - |s|) + s else s
  }

  /** Leading zeros do not change the value of a digit string. */
  lemma {:induction false} LeadingZerosValue(n: nat, s: string)
    requires AllDigits(s)
    ensures AllDigits(Repeat('0', n) + s) && ParseNat(Repeat('0', n) + s) == ParseNat(s)
  {
    if n > 0 {
      var rest := Repeat('0', n - 1) + s;
      LeadingZerosValue(n - 1, s);
      ParseNatLeadingZero(rest);
      assert Repeat('0', n) == ['0'] + Repeat('0', n - 1);
      assert Repeat('0', n) + s == ['0'] + rest;
    } else {
      assert Repeat('0', n) + s == s;
    }
  }

  /** Left-padding a digit string with zeros keeps its value. */
  lemma PadStartZeroValue(s: string, width: nat)
    requires AllDigits(s)
    ensures AllDigits(PadStart(s, width, '0'))
    ensures ParseNat(PadStart(s, width, '0')) == ParseNat(s)
  {
    if |s| < width {
      LeadingZerosValue(width - |s|, s);
    }
  }

  // ---------------------------------------------------- the e-mail pattern

  /** The characters `lo..hi` form a non-empty run of `\S`. */
  predicate NonSpaceRun(s: string, lo: int, hi: int) {
    0 <= lo < hi <= |s| && forall j :: lo <= j < hi ==> !IsSpace(s[j])
  }

  /** The regular expression `\S+@\S+\.\S+` matches `s[a..b]` with the `@` at `i` and the `.` at `k`. */
  predicate EmailMatchAt(s: string, a: int, i: int, k: int, b: int) {
    NonSpaceRun(s, a, i) && i < |s| && s[i] == '@'
    && NonSpaceRun(s, i + 1, k) && k < |s| && s[k] == '.'
    && NonSpaceRun(s, k + 1, b)
  }

  /** `/\S+@\S+\.\S+/.test(s)`: the unanchored pattern matches somewhere in `s`. */
  ghost predicate EmailRegexTest(s: string) {
    exists a, i, k, b :: EmailMatchAt(s, a, i, k, b)
  }

  /**
   * The same test as a check on two positions: an `@` with a non-space character
   * just before it, then at least one non-space character, then a `.` with a
   * non-space character just after it, and no whitespace in between.
   */
  predicate EmailShapeAt(s: string, i: int, k: int) {
    0 < i && i + 1 < k && k + 1 < |s| && s[i] == '@' && s[k] == '.'
    && !IsSpace(s[i - 1]) && !IsSpace(s[k + 1])
    && forall j :: i < j < k ==> !IsSpace(s[j])
  }

  predicate HasEmailShape(s: string) {
    exists i, k :: 0 < i < k < |s| && EmailShapeAt(s, i, k)
  }

  /** The two-position check agrees with the regular expression on every string. */
  lemma EmailShapeIsRegex(s: string)
    ensures HasEmailShape(s) <==> EmailRegexTest(s)
  {
    if HasEmailShape(s) {
      var i, k :| 0 < i < k < |s| && EmailShapeAt(s, i, k);
      assert EmailMatchAt(s, i - 1, i, k, k + 2);
    }
    if EmailRegexTest(s) {
      var a, i, k, b :| EmailMatchAt(s, a, i, k, b);
      assert EmailShapeAt(s, i, k);
    }
  }

  /** The empty string never has the e-mail shape. */
  lemma EmailShapeNonEmpty(s: string)
    requires HasEmailShape(s)
    ensures s != []
  {
  }
}
