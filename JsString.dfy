/**
 * The few string operations of the JavaScript runtime that index.js relies
 * on: character codes, startsWith, String(n) for integers and toLowerCase.
 *
 * A JavaScript string is a sequence of UTF-16 code units; the model keeps to
 * strings whose every code is below 256 wherever a byte-level encoding
 * (md5, encodeURIComponent) or case mapping is involved.
 */
module JsString {

  /** Every character code of s fits in a byte (charCodeAt(i) < 256). */
  predicate IsByteString(s: string) {
    forall i :: 0 <= i < |s| ==> s[i] as int < 256
  }

  /** s.startsWith(prefix). */
  predicate StartsWith(s: string, prefix: string) {
    |prefix| <= |s| && s[..|prefix|] == prefix
  }

  // ------------------------------------------------------------------
  // String(n) for an integer n
  // ------------------------------------------------------------------

  predicate IsDigit(c: char) {
    '0' <= c <= '9'
  }

  function DigitChar(d: nat): (c: char)
    requires d < 10
    ensures IsDigit(c)
  {
    ('0' as int + d) as char
  }

  function DigitValue(c: char): (d: nat)
    requires IsDigit(c)
    ensures d < 10
  {
    c as int - '0' as int
  }

  /** The decimal digits of n, most significant first, without leading zeros. */
  function DecimalDigits(n: nat): (s: string)
    ensures 1 <= |s|
    ensures forall i :: 0 <= i < |s| ==> IsDigit(s[i])
    ensures n < 10 <==> |s| == 1
    ensures |s| > 1 ==> s[0] != '0'
  {
    if n < 10 then [DigitChar(n)] else DecimalDigits(n / 10) + [DigitChar(n % 10)]
  }

  /** String(n): a minus sign for negative n, then the digits of |n|. */
  function IntToString(n: int): (s: string)
    ensures s != "" && IsByteString(s)
    ensures s[0] == '-' <==> n < 0
  {
    if n < 0 then "-" + DecimalDigits(-n) else DecimalDigits(n)
  }

  /** Reading a string of decimal digits back as a number, the way Number(s) reads it. */
  function ParseDigits(s: string): nat
    requires forall i :: 0 <= i < |s| ==> IsDigit(s[i])
  {
    if s == [] then 0 else 10 * ParseDigits(s[..|s| - 1]) + DigitValue(s[|s| - 1])
  }

  /** The digits written for n read back as n: DecimalDigits loses nothing. */
  lemma {:induction false} DecimalDigitsRoundTrip(n: nat)
    ensures ParseDigits(DecimalDigits(n)) == n
  {
    var s := DecimalDigits(n);
    if n >= 10 {
      assert s[..|s| - 1] == DecimalDigits(n / 10);
      DecimalDigitsRoundTrip(n / 10);
    }
  }

  /** Distinct naturals have distinct digits. */
  lemma {:induction false} DecimalDigitsInjective(a: nat, b: nat)
    requires DecimalDigits(a) == DecimalDigits(b)
    ensures a == b
  {
    var s := DecimalDigits(a);
    calc {
      a;
      { DecimalDigitsRoundTrip(a); }
      ParseDigits(s);
      { DecimalDigitsRoundTrip(b); }
      b;
    }
  }

  /** Distinct integers are written differently. */
  lemma {:induction false} IntToStringInjective(m: int, n: int)
    requires IntToString(m) == IntToString(n)
    ensures m == n
  {
    var s := IntToString(m);
    if m < 0 {
      assert s[0] == '-' && n < 0;
      assert s[1..] == DecimalDigits(-m) && s[1..] == DecimalDigits(-n);
      DecimalDigitsInjective(-m, -n);
    } else {
      assert s[0] != '-' && n >= 0;
      DecimalDigitsInjective(m, n);
    }
  }

  // ------------------------------------------------------------------
  // toLowerCase on the byte range
  // ------------------------------------------------------------------

  /** An upper-case letter below 256: A-Z and the Latin-1 capitals U+00C0-U+00DE except U+00D7 (the multiplication sign). */
  predicate IsUpperByte(c: char) {
    'A' <= c <= 'Z' || (0xC0 <= c as int <= 0xDE && c as int != 0xD7)
  }

  /** toLowerCase of one character code below 256: a capital moves down by 0x20, every other code is its own lower case. */
  function LowerChar(c: char): (l: char)
    requires c as int < 256
    ensures l as int < 256
  {
    if IsUpperByte(c) then (c as int + 0x20) as char else c
  }

  /** s.toLowerCase() for a byte string. */
  function ToLowerCase(s: string): (r: string)
    requires IsByteString(s)
    ensures |r| == |s| && IsByteString(r)
  {
    seq(|s|, i requires 0 <= i < |s| => LowerChar(s[i]))
  }

  /** Two characters are the same letter in either case: equal, or a capital and the code 0x20 above it. */
  predicate CaseVariants(a: char, b: char) {
    a == b
    || (IsUpperByte(a) && b as int == a as int + 0x20)
    || (IsUpperByte(b) && a as int == b as int + 0x20)
  }

  /** Two characters lower to the same character exactly when they are case variants of each other. */
  lemma {:induction false} LowerCharMerges(a: char, b: char)
    requires a as int < 256 && b as int < 256
    ensures LowerChar(a) == LowerChar(b) <==> CaseVariants(a, b)
  {
  }

  /** Two strings differ only in letter case: same length, and case variants at every position. */
  predicate SameUpToCase(s: string, t: string) {
    |s| == |t| && forall i :: 0 <= i < |s| ==> CaseVariants(s[i], t[i])
  }

  /** Strings that differ only in letter case lower to the same string, and only those do. */
  lemma {:induction false} ToLowerCaseMerges(s: string, t: string)
    requires IsByteString(s) && IsByteString(t)
    ensures ToLowerCase(s) == ToLowerCase(t) <==> SameUpToCase(s, t)
  {
    if ToLowerCase(s) == ToLowerCase(t) {
      forall i | 0 <= i < |s|
        ensures CaseVariants(s[i], t[i])
      {
        assert ToLowerCase(s)[i] == ToLowerCase(t)[i];
        LowerCharMerges(s[i], t[i]);
      }
    }
    if SameUpToCase(s, t) {
      forall i | 0 <= i < |s|
        ensures ToLowerCase(s)[i] == ToLowerCase(t)[i]
      {
        LowerCharMerges(s[i], t[i]);
      }
    }
  }

  // ------------------------------------------------------------------
  // split and join
  // ------------------------------------------------------------------

  /** parts.join(sep). */
  function Join(parts: seq<string>, sep: char): string {
    if parts == [] then ""
    else if |parts| == 1 then parts[0]
    else parts[0] + [sep] + Join(parts[1..], sep)
  }

  /** s.split(sep): the pieces between separators, at least one. */
  function Split(s: string, sep: char): (parts: seq<string>)
    ensures |parts| >= 1
  {
    if s == [] then [""]
    else
      var rest := Split(s[1..], sep);
      if s[0] == sep then [""] + rest else [[s[0]] + rest[0]] + rest[1..]
  }

  /** A string splits into two or more pieces exactly when it contains the separator. */
  lemma {:induction false} SplitHasSep(s: string, sep: char)
    ensures |Split(s, sep)| >= 2 <==> sep in s
  {
    if s != [] {
      SplitHasSep(s[1..], sep);
      assert sep in s <==> s[0] == sep || sep in s[1..];
    }
  }

  /** A piece without separators splits to itself. */
  lemma {:induction false} SplitNoSep(p: string, sep: char)
    requires sep !in p
    ensures Split(p, sep) == [p]
  {
    if p != [] {
      SplitNoSep(p[1..], sep);
      assert [p[0]] + p[1..] == p;
    }
  }

  /** A piece without separators, then a separator, then t, splits to the piece followed by the pieces of t. */
  lemma {:induction false} SplitFirst(p: string, sep: char, t: string)
    requires sep !in p
    ensures Split(p + [sep] + t, sep) == [p] + Split(t, sep)
  {
    if p == [] {
      assert p + [sep] + t == [sep] + t;
      assert ([sep] + t)[1..] == t;
    } else {
      var u := p + [sep] + t;
      assert u[1..] == p[1..] + [sep] + t;
      SplitFirst(p[1..], sep, t);
      assert [p[0]] + p[1..] == p;
    }
  }

  /** Splitting a join of pieces without separators gives the pieces back. */
  lemma {:induction false} SplitJoin(parts: seq<string>, sep: char)
    requires parts != []
    requires forall j :: 0 <= j < |parts| ==> sep !in parts[j]
    ensures Split(Join(parts, sep), sep) == parts
  {
    if |parts| == 1 {
      SplitNoSep(parts[0], sep);
    } else {
      SplitFirst(parts[0], sep, Join(parts[1..], sep));
      SplitJoin(parts[1..], sep);
      assert [parts[0]] + parts[1..] == parts;
    }
  }
}
