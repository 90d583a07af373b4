/** PHP's byte-string functions as the core uses them. A `string` is a `seq<char>` and one `char`
    stands for one byte, so `|s|` is PHP's `strlen($s)`. */
module Strings {
  import opened Optional

  /** `needle` occurs in `s` starting at index `i`. */
  predicate OccursAt(s: string, needle: string, i: int)
  {
    0 <= i && i + |needle| <= |s| && s[i..i + |needle|] == needle
  }

  predicate StartsWith(s: string, prefix: string)
  {
    |prefix| <= |s| && s[..|prefix|] == prefix
  }

  // ---------------------------------------------------------------- strpos / strrpos

  /** `strpos($s, $needle)`: the first index at which `needle` occurs; `None` where PHP returns false. */
  function Strpos(s: string, needle: string): (r: Option<nat>)
    ensures r.Some? ==> OccursAt(s, needle, r.value)
    ensures forall j :: 0 <= j && (r.None? || j < r.value) ==> !OccursAt(s, needle, j)
  {
    StrposFrom(s, needle, 0)
  }

  /** The first occurrence of `needle` at an index `from` or later. */
  function StrposFrom(s: string, needle: string, from: nat): (r: Option<nat>)
    ensures r.Some? ==> from <= r.value && OccursAt(s, needle, r.value)
    ensures forall j :: from <= j && (r.None? || j < r.value) ==> !OccursAt(s, needle, j)
    decreases |s| - from
  {
    if from + |needle| > |s| then None
    else if s[from..from + |needle|] == needle then Some(from)
    else StrposFrom(s, needle, from + 1)
  }

  /** `strrpos($s, $needle)`: the last index at which `needle` occurs; `None` where PHP returns false.
      An empty needle occurs last at `|s|`, as in PHP 8. */
  function Strrpos(s: string, needle: string): (r: Option<nat>)
    ensures r.Some? ==> OccursAt(s, needle, r.value)
    ensures forall j :: OccursAt(s, needle, j) ==> r.Some? && j <= r.value
  {
    if |needle| > |s| then None else StrrposAtMost(s, needle, |s| - |needle|)
  }

  /** The last occurrence of `needle` at an index no greater than `i`. */
  function StrrposAtMost(s: string, needle: string, i: nat): (r: Option<nat>)
    requires i + |needle| <= |s|
    ensures r.Some? ==> r.value <= i && OccursAt(s, needle, r.value)
    ensures forall j :: j <= i && OccursAt(s, needle, j) ==> r.Some? && j <= r.value
    decreases i
  {
    if s[i..i + |needle|] == needle then Some(i)
    else if i == 0 then None
    else StrrposAtMost(s, needle, i - 1)
  }

  /** `strpos` with a one-character needle finds the first index holding that character. */
  lemma StrposChar(s: string, c: char)
    ensures Strpos(s, [c]).None? <==> forall j :: 0 <= j < |s| ==> s[j] != c
    ensures Strpos(s, [c]).Some? ==>
      Strpos(s, [c]).value < |s| && s[Strpos(s, [c]).value] == c
      && forall j :: 0 <= j < Strpos(s, [c]).value ==> s[j] != c
  {
    forall j | 0 <= j < |s| ensures OccursAt(s, [c], j) <==> s[j] == c {
      assert s[j..j + 1] == [s[j]];
    }
  }

  // ---------------------------------------------------------------- str_replace

  /** `str_replace($needle, $replacement, $s)` for one search string: occurrences are replaced left to
      right without overlapping; an empty needle leaves `s` as it is. */
  function Replace(s: string, needle: string, replacement: string): string
    decreases |s|
  {
    if |needle| == 0 || |s| < |needle| then s
    else if s[..|needle|] == needle then replacement + Replace(s[|needle|..], needle, replacement)
    else [s[0]] + Replace(s[1..], needle, replacement)
  }

  /** Replacing a one-character needle works character by character. */
  lemma {:induction false} ReplaceCharCons(c: char, rest: string, needle: char, replacement: string)
    ensures Replace([c] + rest, [needle], replacement)
         == (if c == needle then replacement else [c]) + Replace(rest, [needle], replacement)
  {
    var s := [c] + rest;
    assert s[..1] == [c];
    assert s[1..] == rest;
  }

  /** A needle that does not occur leaves the string unchanged. */
  lemma {:induction false} ReplaceAbsent(s: string, needle: string, replacement: string)
    requires forall j :: !OccursAt(s, needle, j)
    ensures Replace(s, needle, replacement) == s
    decreases |s|
  {
    if |needle| == 0 || |s| < |needle| {
    } else {
      assert !OccursAt(s, needle, 0);
      assert s[..|needle|] != needle;
      forall j ensures !OccursAt(s[1..], needle, j) {
        if OccursAt(s[1..], needle, j) {
          assert s[1..][j..j + |needle|] == s[j + 1..j + 1 + |needle|];
          assert OccursAt(s, needle, j + 1);
        }
      }
      ReplaceAbsent(s[1..], needle, replacement);
      assert [s[0]] + s[1..] == s;
    }
  }

  // ---------------------------------------------------------------- case mapping

  /** `strtoupper` on one byte: ASCII letters only. */
  function UpperChar(c: char): char
  {
    if 'a' <= c <= 'z' then (c as int - 32) as char else c
  }

  /** `strtolower` on one byte: ASCII letters only. */
  function LowerChar(c: char): char
  {
    if 'A' <= c <= 'Z' then (c as int + 32) as char else c
  }

  /** `strtoupper`: each ASCII lower-case letter becomes its capital, every other byte stays. */
  function Upper(s: string): (r: string)
    ensures |r| == |s|
    ensures forall i :: 0 <= i < |s| ==> if 'a' <= s[i] <= 'z' then r[i] as int == s[i] as int - 32 else r[i] == s[i]
  {
    seq(|s|, i requires 0 <= i < |s| => UpperChar(s[i]))
  }

  /** `strtolower`: each ASCII capital becomes its lower-case letter, every other byte stays. */
  function Lower(s: string): (r: string)
    ensures |r| == |s|
    ensures forall i :: 0 <= i < |s| ==> if 'A' <= s[i] <= 'Z' then r[i] as int == s[i] as int + 32 else r[i] == s[i]
  {
    seq(|s|, i requires 0 <= i < |s| => LowerChar(s[i]))
  }

  // ---------------------------------------------------------------- trim and substr

  /** The bytes `trim` strips by default: space, tab, newline, carriage return, NUL and vertical tab. */
  predicate IsTrimmed(c: char)
  {
    c == ' ' || c == '\t' || c == '\n' || c == '\r' || c == '\0' || c == '\U{B}'
  }

  function TrimLeft(s: string): (r: string)
    ensures |r| <= |s| && r == s[|s| - |r|..]
    ensures r == [] || !IsTrimmed(r[0])
    ensures forall i :: 0 <= i < |s| - |r| ==> IsTrimmed(s[i])
  {
    if s != [] && IsTrimmed(s[0]) then TrimLeft(s[1..]) else s
  }

  function TrimRight(s: string): (r: string)
    ensures |r| <= |s| && r == s[..|r|]
    ensures r == [] || !IsTrimmed(r[|r| - 1])
    ensures forall i :: |r| <= i < |s| ==> IsTrimmed(s[i])
  {
    if s != [] && IsTrimmed(s[|s| - 1]) then TrimRight(s[..|s| - 1]) else s
  }

  /** `trim($s)`: strips the default set of bytes from both ends. */
  function Trim(s: string): (r: string)
    ensures r == [] || (!IsTrimmed(r[0]) && !IsTrimmed(r[|r| - 1]))
  {
    TrimRight(TrimLeft(s))
  }

  /** `substr($s, $start)` for a non-negative start: empty once the start is past the end. */
  function Substr(s: string, start: nat): (r: string)
    ensures start <= |s| ==> r == s[start..]
    ensures start > |s| ==> r == []
  {
    if start <= |s| then s[start..] else []
  }

  // ---------------------------------------------------------------- integers as text

  predicate IsDigit(c: char)
  {
    '0' <= c <= '9'
  }

  function DigitChar(d: nat): char
    requires d < 10
  {
    ('0' as int + d) as char
  }

  function DigitValue(c: char): nat
    requires IsDigit(c)
  {
    c as int - '0' as int
  }

  /** The decimal text of a natural number, as PHP interpolates it into a string. */
  function NatToString(n: nat): (r: string)
    ensures |r| > 0
    ensures forall i :: 0 <= i < |r| ==> IsDigit(r[i])
  {
    if n < 10 then [DigitChar(n)] else NatToString(n / 10) + [DigitChar(n % 10)]
  }

  /** The decimal text of an integer, with a leading minus sign when it is negative. */
  function IntToString(i: int): string
  {
    if i < 0 then "-" + NatToString(-i) else NatToString(i)
  }

  /** The value of a string of decimal digits. */
  function ParseDigits(s: string): nat
    requires forall i :: 0 <= i < |s| ==> IsDigit(s[i])
  {
    if s == [] then 0 else ParseDigits(s[..|s| - 1]) * 10 + DigitValue(s[|s| - 1])
  }

  /** The white space PHP 8 allows around a numeric string: space, tab, line feed, vertical tab,
      form feed and carriage return. */
  predicate NumericSpace(c: char)
  {
    c == ' ' || '\t' <= c <= '\r'
  }

  /** `s` without the numeric white space at either end. */
  function StripNumericSpace(s: string): (r: string)
    ensures r == [] || (!NumericSpace(r[0]) && !NumericSpace(r[|r| - 1]))
    decreases |s|
  {
    if s != [] && NumericSpace(s[0]) then StripNumericSpace(s[1..])
    else if s != [] && NumericSpace(s[|s| - 1]) then StripNumericSpace(s[..|s| - 1])
    else s
  }

  /** The integer an integer numeric string denotes, as PHP 8 reads it: white space around an
      optional sign and one or more decimal digits. Numeric strings with a fraction or an exponent
      denote floats, which are not modelled; every other string is not numeric. */
  function IntegerValue(s: string): Option<int>
  {
    var t := StripNumericSpace(s);
    var signed := t != [] && (t[0] == '-' || t[0] == '+');
    var digits := if signed then t[1..] else t;
    if digits != [] && forall i :: 0 <= i < |digits| ==> IsDigit(digits[i]) then
      var value: int := ParseDigits(digits);
      Some(if signed && t[0] == '-' then -value else value)
    else None
  }

  /** The decimal text of an integer denotes that integer. */
  lemma {:induction false} IntegerValueOfText(n: int)
    ensures IntegerValue(IntToString(n)) == Some(n)
  {
    var s := IntToString(n);
    var m: nat := if n < 0 then -n else n;
    var digits := NatToString(m);
    assert s == if n < 0 then "-" + digits else digits;
    assert s[0] == '-' || IsDigit(s[0]);
    assert IsDigit(s[|s| - 1]);
    assert StripNumericSpace(s) == s;
    if n < 0 {
      assert s[1..] == digits;
    }
    ParseNatToString(m);
  }

  /** PHP 8 reads through leading zeros and surrounding white space: " 02\n" denotes 2. */
  lemma PaddedIntegerValue()
    ensures IntegerValue(" 02\n") == Some(2)
  {
    assert " 02\n"[1..] == "02\n";
    assert "02\n"[..2] == "02";
    assert StripNumericSpace(" 02\n") == StripNumericSpace("02\n") == StripNumericSpace("02") == "02";
    assert "02"[..1] == "0";
    assert ParseDigits("0") == 0;
    assert ParseDigits("02") == 2;
  }

  /** The longest prefix of `s` made of decimal digits. */
  function LeadingDigits(s: string): (r: string)
    ensures StartsWith(s, r)
    ensures forall i :: 0 <= i < |r| ==> IsDigit(r[i])
    ensures |r| == |s| || !IsDigit(s[|r|])
  {
    if s != [] && IsDigit(s[0]) then [s[0]] + LeadingDigits(s[1..]) else []
  }

  /** Reading back the decimal text of a number gives the number. */
  lemma {:induction false} ParseNatToString(n: nat)
    ensures ParseDigits(NatToString(n)) == n
  {
    if n >= 10 {
      var s := NatToString(n);
      assert s[..|s| - 1] == NatToString(n / 10);
      ParseNatToString(n / 10);
    }
  }

  /** The decimal text of a number is its own leading run of digits, whatever follows it. */
  lemma {:induction false} LeadingDigitsOfNumber(digits: string, rest: string)
    requires forall i :: 0 <= i < |digits| ==> IsDigit(digits[i])
    requires rest == [] || !IsDigit(rest[0])
    ensures LeadingDigits(digits + rest) == digits
    decreases |digits|
  {
    if digits == [] {
      assert digits + rest == rest;
    } else {
      assert (digits + rest)[1..] == digits[1..] + rest;
      LeadingDigitsOfNumber(digits[1..], rest);
      assert [digits[0]] + digits[1..] == digits;
    }
  }

  /** A string of digits is its own leading run of digits. */
  lemma {:induction false} AllDigitsLead(s: string)
    requires forall i :: 0 <= i < |s| ==> IsDigit(s[i])
    ensures LeadingDigits(s) == s
  {
    if s != [] {
      AllDigitsLead(s[1..]);
    }
  }

  /** A digit string with a non-zero first digit is worth at least ten to its length less one. */
  lemma {:induction false} LeadingDigitValue(s: string)
    requires s != [] && s[0] != '0'
    requires forall i :: 0 <= i < |s| ==> IsDigit(s[i])
    ensures ParseDigits(s) >= Pow10(|s| - 1)
  {
    if |s| > 1 {
      LeadingDigitValue(s[..|s| - 1]);
    }
  }

  /** Powers of ten grow with the exponent. */
  lemma {:induction false} Pow10Grows(m: nat, n: nat)
    requires m <= n
    ensures Pow10(m) <= Pow10(n)
  {
    if m < n {
      Pow10Grows(m, n - 1);
    }
  }

  /** Powers of ten multiply by adding their exponents. */
  lemma {:induction false} Pow10Sum(m: nat, n: nat)
    ensures Pow10(m + n) == Pow10(m) * Pow10(n)
  {
    if m > 0 {
      Pow10Sum(m - 1, n);
    }
  }

  /** Ten to the power n. */
  function Pow10(n: nat): nat
  {
    if n == 0 then 1 else 10 * Pow10(n - 1)
  }
}
