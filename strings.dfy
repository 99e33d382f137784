/**
 * The few pieces of Python's `str` the backend relies on: `strip`, `split(",")`,
 * `lower`, `in` (substring test), `replace` of one character, `str(int)` and the
 * decimal parsing done by `pandas.to_numeric`. Only ASCII case mapping is modelled.
 */
module Strings {
  import opened Wrappers

  /** The ASCII characters for which Python's `str.isspace` holds. */
  predicate IsSpace(c: char) {
    c == ' ' || c == '\t' || c == '\n' || c == '\r' || c == '\U{B}' || c == '\U{C}'
    || c == '\U{1C}' || c == '\U{1D}' || c == '\U{1E}' || c == '\U{1F}'
  }

  /** The number of white-space characters `s` starts with. */
  function LeadingSpaces(s: string): (n: nat)
    ensures n <= |s|
  {
    if s == [] || !IsSpace(s[0]) then 0 else 1 + LeadingSpaces(s[1..])
  }

  lemma {:induction false} LeadingSpacesSpec(s: string)
    ensures forall i :: 0 <= i < LeadingSpaces(s) ==> IsSpace(s[i])
    ensures LeadingSpaces(s) < |s| ==> !IsSpace(s[LeadingSpaces(s)])
  {
    if s != [] && IsSpace(s[0]) {
      LeadingSpacesSpec(s[1..]);
      forall i | 1 <= i < LeadingSpaces(s)
        ensures IsSpace(s[i])
      {
        assert s[i] == s[1..][i - 1];
      }
    }
  }

  /** The number of white-space characters `s` ends with. */
  function TrailingSpaces(s: string): (n: nat)
    ensures n <= |s|
  {
    if s == [] || !IsSpace(s[|s| - 1]) then 0 else 1 + TrailingSpaces(s[..|s| - 1])
  }

  lemma {:induction false} TrailingSpacesSpec(s: string)
    ensures forall i :: |s| - TrailingSpaces(s) <= i < |s| ==> IsSpace(s[i])
    ensures TrailingSpaces(s) < |s| ==> !IsSpace(s[|s| - TrailingSpaces(s) - 1])
  {
    if s != [] && IsSpace(s[|s| - 1]) {
      var t := s[..|s| - 1];
      TrailingSpacesSpec(t);
      forall i | |s| - TrailingSpaces(s) <= i < |s| - 1
        ensures IsSpace(s[i])
      {
        assert s[i] == t[i];
      }
      if TrailingSpaces(s) < |s| {
        assert s[|s| - TrailingSpaces(s) - 1] == t[|t| - TrailingSpaces(t) - 1];
      }
    }
  }

  /** Python's `s.lstrip()`. */
  function TrimLeft(s: string): string {
    s[LeadingSpaces(s)..]
  }

  /** Python's `s.rstrip()`. */
  function TrimRight(s: string): string {
    s[..|s| - TrailingSpaces(s)]
  }

  /** Python's `s.strip()`: the longest middle part without surrounding white space. */
  function Strip(s: string): (r: string)
    ensures r == [] || (!IsSpace(r[0]) && !IsSpace(r[|r| - 1]))
    ensures |r| <= |s|
  {
    var left := TrimLeft(s);
    LeadingSpacesSpec(s);
    TrailingSpacesSpec(left);
    TrimRight(left)
  }

  /** The strip of `s` is the slice between its leading and trailing white space. */
  lemma StripSlice(s: string)
    ensures var a := LeadingSpaces(s); var r := Strip(s);
      && a + |r| == |s| - TrailingSpaces(s[a..])
      && r == s[a..a + |r|]
  {
    var a := LeadingSpaces(s);
    var left := s[a..];
    assert Strip(s) == left[..|left| - TrailingSpaces(left)];
  }

  /** Stripping removes white space only, and only at the two ends. */
  lemma StripRemovesSpaceOnly(s: string)
    ensures var a := LeadingSpaces(s); var r := Strip(s);
      && a + |r| <= |s| && r == s[a..a + |r|]
      && (forall i :: 0 <= i < a ==> IsSpace(s[i]))
      && (forall i :: a + |r| <= i < |s| ==> IsSpace(s[i]))
  {
    var a := LeadingSpaces(s);
    var left := s[a..];
    var r := Strip(s);
    StripSlice(s);
    LeadingSpacesSpec(s);
    TrailingSpacesSpec(left);
    forall i | a + |r| <= i < |s|
      ensures IsSpace(s[i])
    {
      assert s[i] == left[i - a];
    }
  }

  /** Text that neither starts nor ends with whitespace is its own strip. */
  lemma StripUnchanged(s: string)
    requires s != [] && !IsSpace(s[0]) && !IsSpace(s[|s| - 1])
    ensures Strip(s) == s
  {
    assert LeadingSpaces(s) == 0;
    assert TrailingSpaces(s) == 0;
  }

  /** Number of occurrences of `c` in `s`. */
  function Count(s: string, c: char): nat {
    if s == [] then 0 else (if s[0] == c then 1 else 0) + Count(s[1..], c)
  }

  /** Python's `s.split(sep)` for a one-character separator. */
  function Split(s: string, sep: char): (r: seq<string>)
    ensures |r| >= 1
  {
    if s == [] then [""]
    else
      var rest := Split(s[1..], sep);
      if s[0] == sep then [""] + rest else [[s[0]] + rest[0]] + rest[1..]
  }

  /** Python's `sep.join(parts)`. */
  function Join(parts: seq<string>, sep: char): string {
    if parts == [] then ""
    else if |parts| == 1 then parts[0]
    else parts[0] + [sep] + Join(parts[1..], sep)
  }

  /** Splitting yields one piece more than there are separators. */
  lemma {:induction false} SplitCount(s: string, sep: char)
    ensures |Split(s, sep)| == Count(s, sep) + 1
  {
    if s != [] {
      SplitCount(s[1..], sep);
    }
  }

  /** Text without the separator is one piece. */
  lemma {:induction false} SplitNoSep(a: string, sep: char)
    requires sep !in a
    ensures Split(a, sep) == [a]
  {
    if a != [] {
      assert sep !in a[1..];
      SplitNoSep(a[1..], sep);
      assert [a[0]] + a[1..] == a;
    }
  }

  /** Splitting at the first separator: the text before it is the first piece. */
  lemma {:induction false} SplitFirst(a: string, b: string, sep: char)
    requires sep !in a
    ensures Split(a + [sep] + b, sep) == [a] + Split(b, sep)
  {
    if a == [] {
      assert a + [sep] + b == [sep] + b;
      assert ([sep] + b)[1..] == b;
    } else {
      assert (a + [sep] + b)[1..] == a[1..] + [sep] + b;
      assert sep !in a[1..];
      SplitFirst(a[1..], b, sep);
      assert [a[0]] + a[1..] == a;
    }
  }

  /** No piece contains the separator. */
  lemma {:induction false} SplitPiecesFree(s: string, sep: char)
    ensures forall i :: 0 <= i < |Split(s, sep)| ==> sep !in Split(s, sep)[i]
  {
    if s != [] {
      SplitPiecesFree(s[1..], sep);
      var rest := Split(s[1..], sep);
      if s[0] != sep {
        assert sep !in rest[0];
        assert sep !in [s[0]] + rest[0];
      }
    }
  }

  /** Joining the pieces with the separator gives back the original text. */
  lemma {:induction false} SplitJoin(s: string, sep: char)
    ensures Join(Split(s, sep), sep) == s
  {
    if s != [] {
      SplitJoin(s[1..], sep);
      var rest := Split(s[1..], sep);
      if s[0] == sep {
        assert Split(s, sep) == [""] + rest;
        calc {
          Join([""] + rest, sep);
          "" + [sep] + Join(rest, sep);
          [s[0]] + s[1..];
        }
      } else {
        var parts := [[s[0]] + rest[0]] + rest[1..];
        if |rest| == 1 {
          assert Join(parts, sep) == [s[0]] + rest[0];
        } else {
          assert parts[1..] == rest[1..];
          assert Join(rest, sep) == rest[0] + [sep] + Join(rest[1..], sep);
        }
      }
    }
  }

  function LowerChar(c: char): char {
    if 'A' <= c <= 'Z' then (c as int - 'A' as int + 'a' as int) as char else c
  }

  /** Python's `s.lower()` restricted to ASCII letters. */
  function Lower(s: string): (r: string)
    ensures |r| == |s|
  {
    if s == [] then [] else [LowerChar(s[0])] + Lower(s[1..])
  }

  /** Lowering works letter by letter. */
  lemma {:induction false} LowerAt(s: string)
    ensures forall i :: 0 <= i < |s| ==> Lower(s)[i] == LowerChar(s[i])
  {
    if s != [] {
      LowerAt(s[1..]);
      assert forall i :: 1 <= i < |s| ==> Lower(s)[i] == Lower(s[1..])[i - 1];
    }
  }

  /**
   * The order of SQLite's BINARY collation: by the first differing character's code,
   * a proper prefix before the longer text.
   */
  predicate StrLess(a: string, b: string) {
    b != [] && (a == [] || a[0] < b[0] || (a[0] == b[0] && StrLess(a[1..], b[1..])))
  }

  /** Two different texts are ordered one way or the other. */
  lemma {:induction false} StrLessTotal(a: string, b: string)
    requires a != b
    ensures StrLess(a, b) || StrLess(b, a)
  {
    if a != [] && b != [] && a[0] == b[0] {
      assert a == [a[0]] + a[1..] && b == [b[0]] + b[1..];
      StrLessTotal(a[1..], b[1..]);
    }
  }

  /** No text comes before itself. */
  lemma {:induction false} StrLessIrreflexive(a: string)
    ensures !StrLess(a, a)
  {
    if a != [] {
      StrLessIrreflexive(a[1..]);
    }
  }

  lemma {:induction false} StrLessTransitive(a: string, b: string, c: string)
    requires StrLess(a, b) && StrLess(b, c)
    ensures StrLess(a, c)
  {
    if a != [] && a[0] == b[0] && b[0] == c[0] {
      StrLessTransitive(a[1..], b[1..], c[1..]);
    }
  }

  /** Python's `s.startswith(p)`, letter by letter. */
  predicate StartsWith(s: string, p: string) {
    |p| <= |s| && (p == [] || (s[0] == p[0] && StartsWith(s[1..], p[1..])))
  }

  lemma {:induction false} StartsWithPrefix(s: string, p: string)
    ensures StartsWith(s, p) <==> |p| <= |s| && s[..|p|] == p
  {
    if p != [] && |p| <= |s| {
      StartsWithPrefix(s[1..], p[1..]);
      assert s[..|p|] == [s[0]] + s[1..][..|p| - 1];
    }
  }

  /** Python's `sub in s`: `sub` starts at the first position or somewhere after it. */
  predicate Contains(s: string, sub: string) {
    StartsWith(s, sub) || (s != [] && Contains(s[1..], sub))
  }

  /** A text that lacks the first letter of `sub` cannot contain `sub`. */
  lemma {:induction false} NotContainsWithoutFirst(s: string, sub: string)
    requires sub != [] && sub[0] !in s
    ensures !Contains(s, sub)
  {
    if s != [] {
      NotContainsWithoutFirst(s[1..], sub);
    }
  }

  /** Every window of `s` that equals `sub` is found. */
  lemma {:induction false} ContainsWindow(s: string, sub: string, i: nat)
    requires i + |sub| <= |s| && s[i..i + |sub|] == sub
    ensures Contains(s, sub)
  {
    if i == 0 {
      StartsWithPrefix(s, sub);
    } else {
      assert s[1..][i - 1..i - 1 + |sub|] == s[i..i + |sub|];
      ContainsWindow(s[1..], sub, i - 1);
    }
  }

  /** `s.lower().startswith(p)`, lowering one letter at a time. */
  predicate StartsWithLower(s: string, p: string) {
    |p| <= |s| && (p == [] || (LowerChar(s[0]) == p[0] && StartsWithLower(s[1..], p[1..])))
  }

  /** `sub in s.lower()`, the case-insensitive search of `str.contains(..., case=False)`. */
  predicate ContainsLower(s: string, sub: string) {
    StartsWithLower(s, sub) || (s != [] && ContainsLower(s[1..], sub))
  }

  lemma {:induction false} StartsWithLowerIsStartsWith(s: string, p: string)
    ensures StartsWithLower(s, p) <==> StartsWith(Lower(s), p)
  {
    if p != [] && |p| <= |s| {
      assert Lower(s)[1..] == Lower(s[1..]);
      StartsWithLowerIsStartsWith(s[1..], p[1..]);
    }
  }

  /** The letter-by-letter search agrees with searching the lowered text. */
  lemma {:induction false} ContainsLowerIsContains(s: string, sub: string)
    ensures ContainsLower(s, sub) <==> Contains(Lower(s), sub)
  {
    StartsWithLowerIsStartsWith(s, sub);
    if s != [] {
      assert Lower(s)[1..] == Lower(s[1..]);
      ContainsLowerIsContains(s[1..], sub);
    }
  }

  /** A text none of whose letters lowers to the first letter of `sub` does not contain it. */
  lemma {:induction false} NotContainsLower(s: string, sub: string)
    requires sub != [] && forall i :: 0 <= i < |s| ==> LowerChar(s[i]) != sub[0]
    ensures !ContainsLower(s, sub)
  {
    if s != [] {
      NotContainsLower(s[1..], sub);
    }
  }

  /** Python's `s.replace(a, b)` for single characters. */
  function ReplaceChar(s: string, a: char, b: char): (r: string)
    ensures |r| == |s|
    ensures forall i :: 0 <= i < |s| ==> r[i] == (if s[i] == a then b else s[i])
  {
    if s == [] then [] else [if s[0] == a then b else s[0]] + ReplaceChar(s[1..], a, b)
  }

  predicate IsDigit(c: char) {
    '0' <= c <= '9'
  }

  function DigitChar(d: nat): char
    requires d < 10
  {
    ('0' as int + d) as char
  }

  /** Python's `str(n)` for a natural number. */
  function NatToString(n: nat): (r: string)
    ensures r != [] && forall i :: 0 <= i < |r| ==> IsDigit(r[i])
  {
    if n < 10 then [DigitChar(n)] else NatToString(n / 10) + [DigitChar(n % 10)]
  }

  /** The value of a string of decimal digits. */
  function DigitsValue(s: string): nat
    requires forall i :: 0 <= i < |s| ==> IsDigit(s[i])
  {
    if s == [] then 0
    else
      assert IsDigit(s[|s| - 1]);
      DigitsValue(s[..|s| - 1]) * 10 + (s[|s| - 1] as int - '0' as int)
  }

  /** Reading back a printed natural number gives the number. */
  lemma {:induction false} NatToStringRoundTrip(n: nat)
    ensures DigitsValue(NatToString(n)) == n
  {
    if n >= 10 {
      NatToStringRoundTrip(n / 10);
      var s := NatToString(n);
      assert s[..|s| - 1] == NatToString(n / 10);
    }
  }

  function Pow10(k: nat): (r: nat)
    ensures r >= 1
  {
    if k == 0 then 1 else 10 * Pow10(k - 1)
  }

  function IndexOf(s: string, c: char): (r: nat)
    ensures r <= |s|
    ensures r < |s| ==> s[r] == c
    ensures forall i :: 0 <= i < r ==> s[i] != c
  {
    if s == [] then 0 else if s[0] == c then 0 else 1 + IndexOf(s[1..], c)
  }

  /**
   * Text as `pandas.to_numeric` reads it: surrounding white space is skipped, then an
   * optional sign, digits with an optional fraction, and an optional exponent `e` or
   * `E` with its own optional sign; anything else does not parse (`errors='coerce'`
   * turns it into NaN).
   */
  function ParseNumber(s: string): (r: Option<real>)
    ensures r.Some? ==> Strip(s) != []
  {
    ParseScientific(Strip(s))
  }

  /** A decimal number followed by an optional exponent, with nothing around it. */
  function ParseScientific(t: string): (r: Option<real>)
    ensures r.Some? ==> t != []
  {
    var k := ExponentAt(t);
    if k == |t| then ParseDecimal(t)
    else
      var m, e := ParseDecimal(t[..k]), ParseInteger(t[k + 1..]);
      if m.Some? && e.Some? then Some(Scale(m.value, e.value)) else None
  }

  /** `m` times ten to the power `e`; a negative `e` divides (see ScaleUp for `e >= 0`). */
  function Scale(m: real, e: int): real {
    if e >= 0 then m * Pow10(e) as real else m / Pow10(-e) as real
  }

  lemma ScaleUp(m: real, e: nat)
    ensures Scale(m, e) == m * Pow10(e) as real
  {
  }

  /** The position of the first `e` or `E`, or the length when there is none. */
  function ExponentAt(t: string): (k: nat)
    ensures k <= |t|
    ensures k < |t| ==> t[k] == 'e' || t[k] == 'E'
    ensures forall i :: 0 <= i < k ==> t[i] != 'e' && t[i] != 'E'
  {
    if t == [] || t[0] == 'e' || t[0] == 'E' then 0 else 1 + ExponentAt(t[1..])
  }

  /** An optional sign followed by at least one digit. */
  function ParseInteger(t: string): (r: Option<int>)
  {
    var body := if |t| > 0 && (t[0] == '-' || t[0] == '+') then t[1..] else t;
    if body == [] || !(forall i :: 0 <= i < |body| ==> IsDigit(body[i])) then None
    else if t[0] == '-' then Some(-(DigitsValue(body) as int)) else Some(DigitsValue(body) as int)
  }

  /** An optional sign, digits, and an optional fraction, with at least one digit. */
  function ParseDecimal(t: string): (r: Option<real>)
    ensures r.Some? ==> t != []
  {
    var negative := |t| > 0 && t[0] == '-';
    var body := if |t| > 0 && (t[0] == '-' || t[0] == '+') then t[1..] else t;
    var dot := IndexOf(body, '.');
    var whole := body[..dot];
    var frac := if dot < |body| then body[dot + 1..] else "";
    if |whole| + |frac| == 0 then None
    else if !(forall i :: 0 <= i < |whole| ==> IsDigit(whole[i])) then None
    else if !(forall i :: 0 <= i < |frac| ==> IsDigit(frac[i])) then None
    else
      var magnitude := DigitsValue(whole) as real + Fraction(frac);
      Some(if negative then -magnitude else magnitude)
  }

  /** The value of the digits after the decimal point. */
  function Fraction(frac: string): real
    requires forall i :: 0 <= i < |frac| ==> IsDigit(frac[i])
  {
    if frac == [] then 0.0 else DigitsValue(frac) as real / Pow10(|frac|) as real
  }

  /** Stripping twice is stripping once. */
  lemma StripIdempotent(s: string)
    ensures Strip(Strip(s)) == Strip(s)
  {
    if Strip(s) != [] {
      StripUnchanged(Strip(s));
    }
  }

  /** White space around a number does not change what it reads as. */
  lemma ParseNumberIgnoresSpace(s: string)
    ensures ParseNumber(s) == ParseNumber(Strip(s))
  {
    StripIdempotent(s);
  }

  /** A run of digits, padded with white space or not, reads as its value. */
  lemma ParseDigits(pre: string, d: string, post: string)
    requires d != [] && forall i :: 0 <= i < |d| ==> IsDigit(d[i])
    requires forall i :: 0 <= i < |pre| ==> IsSpace(pre[i])
    requires forall i :: 0 <= i < |post| ==> IsSpace(post[i])
    ensures ParseNumber(pre + d + post) == Some(DigitsValue(d) as real)
  {
    StripAround(pre, d, post);
    NoExponentInDigits(d);
    DecimalDigits(d);
  }

  /** Digits, an `e` and a natural exponent `k` read as the digits' value scaled by ten to the `k`. */
  lemma ParseExponent(d: string, k: nat)
    requires d != [] && forall i :: 0 <= i < |d| ==> IsDigit(d[i])
    ensures ParseNumber(d + "e" + NatToString(k)) == Some(Scale(DigitsValue(d) as real, k))
  {
    var n := NatToString(k);
    var t := d + "e" + n;
    assert t[0] == d[0] && t[|t| - 1] == n[|n| - 1];
    StripUnchanged(t);
    ScientificDigits(d, k, t);
  }

  /** The same text without white space to strip, as ParseScientific reads it. */
  lemma ScientificDigits(d: string, k: nat, t: string)
    requires d != [] && forall i :: 0 <= i < |d| ==> IsDigit(d[i])
    requires t == d + "e" + NatToString(k)
    ensures ParseScientific(t) == Some(Scale(DigitsValue(d) as real, k))
  {
    var n := NatToString(k);
    assert t == d + ("e" + n);
    ExponentAfterDigits(d, "e" + n);
    assert t[..|d|] == d && t[|d| + 1..] == n;
    DecimalDigits(d);
    IntegerDigits(k);
    ScientificParts(t, |d|, DigitsValue(d) as real, k);
  }

  /** ParseScientific on a text whose exponent marker, mantissa and exponent are known. */
  lemma ScientificParts(t: string, j: nat, m: real, e: int)
    requires j < |t| && ExponentAt(t) == j
    requires ParseDecimal(t[..j]) == Some(m) && ParseInteger(t[j + 1..]) == Some(e)
    ensures ParseScientific(t) == Some(Scale(m, e))
  {
  }

  /** A run of digits is a decimal without sign or fraction. */
  lemma DecimalDigits(d: string)
    requires d != [] && forall i :: 0 <= i < |d| ==> IsDigit(d[i])
    ensures ParseDecimal(d) == Some(DigitsValue(d) as real)
  {
    assert IsDigit(d[0]) && d[0] != '-' && d[0] != '+';
    NoCharInDigits(d, '.');
    assert d[..|d|] == d;
    assert Fraction("") == 0.0;
  }

  /** A printed natural number reads back as an exponent. */
  lemma IntegerDigits(k: nat)
    ensures ParseInteger(NatToString(k)) == Some(k)
  {
    NatToStringRoundTrip(k);
  }

  /** Text framed by white space strips to its middle when the middle has none at its ends. */
  lemma StripAround(pre: string, d: string, post: string)
    requires d != [] && !IsSpace(d[0]) && !IsSpace(d[|d| - 1])
    requires forall i :: 0 <= i < |pre| ==> IsSpace(pre[i])
    requires forall i :: 0 <= i < |post| ==> IsSpace(post[i])
    ensures Strip(pre + d + post) == d
  {
    var s := pre + d + post;
    LeadingAt(s, |pre|);
    var left := s[|pre|..];
    assert left == d + post;
    TrailingAt(left, |post|);
    assert left[..|left| - |post|] == d;
  }

  lemma {:induction false} LeadingAt(s: string, a: nat)
    requires a < |s| && !IsSpace(s[a]) && forall i :: 0 <= i < a ==> IsSpace(s[i])
    ensures LeadingSpaces(s) == a
  {
    if a > 0 {
      LeadingAt(s[1..], a - 1);
    }
  }

  lemma {:induction false} TrailingAt(s: string, b: nat)
    requires b < |s| && !IsSpace(s[|s| - b - 1]) && forall i :: |s| - b <= i < |s| ==> IsSpace(s[i])
    ensures TrailingSpaces(s) == b
  {
    if b > 0 {
      var t := s[..|s| - 1];
      assert t[|t| - (b - 1) - 1] == s[|s| - b - 1];
      TrailingAt(t, b - 1);
    }
  }

  lemma {:induction false} NoCharInDigits(d: string, c: char)
    requires forall i :: 0 <= i < |d| ==> IsDigit(d[i])
    requires !IsDigit(c)
    ensures IndexOf(d, c) == |d|
  {
    if d != [] {
      NoCharInDigits(d[1..], c);
    }
  }

  lemma {:induction false} NoExponentInDigits(d: string)
    requires forall i :: 0 <= i < |d| ==> IsDigit(d[i])
    ensures ExponentAt(d) == |d|
  {
    if d != [] {
      NoExponentInDigits(d[1..]);
    }
  }

  lemma {:induction false} ExponentAfterDigits(d: string, rest: string)
    requires forall i :: 0 <= i < |d| ==> IsDigit(d[i])
    requires rest != [] && rest[0] == 'e'
    ensures ExponentAt(d + rest) == |d|
  {
    if d != [] {
      assert (d + rest)[1..] == d[1..] + rest;
      ExponentAfterDigits(d[1..], rest);
    } else {
      assert d + rest == rest;
    }
  }
}
