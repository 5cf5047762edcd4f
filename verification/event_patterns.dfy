/**
 * The regular expressions of the event form's `validationConditions`, each
 * written in the shape of the expression (its alternatives and the positions
 * where its parts meet), with lemmas that say in plain terms which strings
 * each one accepts. The `(^$)|` alternative every expression starts with is
 * added by the form's dispatch (AddEvent.Condition).
 */
module EventPatterns {
  import opened Chars

  /** `[A-Za-z0-9 ]` */
  predicate IsTitleChar(c: char) {
    IsAsciiAlnum(c) || c == ' '
  }

  predicate AllTitleChars(s: string) {
    forall i :: 0 <= i < |s| ==> IsTitleChar(s[i])
  }

  /** `^[A-Za-z0-9 ]*[A-Za-z0-9][A-Za-z0-9 ]*$` (title and team): an
      alphanumeric character at some position i, with only letters, digits and
      spaces before and after it. */
  predicate TitlePattern(s: string) {
    exists i | 0 <= i < |s| :: AllTitleChars(s[..i]) && IsAsciiAlnum(s[i]) && AllTitleChars(s[i + 1..])
  }

  /** A title is made of ASCII letters, digits and spaces, and is not all spaces. */
  lemma TitlePatternMeaning(s: string)
    ensures TitlePattern(s) <==> AllTitleChars(s) && exists i :: 0 <= i < |s| && IsAsciiAlnum(s[i])
  {
  }

  /** `^.{10,500}$` (description): no line terminator, and 10 to 500 UTF-16
      code units, since without the `u` flag `.` matches one code unit. So
      between 5 and 500 characters are needed, 10 to 250 always suffice, and
      in the Basic Multilingual Plane the bounds are exactly 10 and 500. */
  function DescriptionPattern(s: string): (ok: bool)
    ensures ok ==> 5 <= |s| <= 500
    ensures 10 <= |s| <= 250 && (forall i :: 0 <= i < |s| ==> !IsLineTerminator(s[i])) ==> ok
    ensures AllBmp(s) ==> (ok <==> 10 <= |s| <= 500 && forall i :: 0 <= i < |s| ==> !IsLineTerminator(s[i]))
  {
    && (forall i :: 0 <= i < |s| ==> !IsLineTerminator(s[i]))
    && 10 <= Utf16Length(s) <= 500
  }

  /** `\d+([.]\d+)?`: digits, then optionally a dot and more digits. */
  predicate UnsignedNumeral(t: string) {
    || (0 < |t| && AllDigits(t))
    || exists j | 0 < j < |t| - 1 :: AllDigits(t[..j]) && t[j] == '.' && AllDigits(t[j + 1..])
  }

  /** `^[+]?\d+([.]\d+)?$` (price and seats). */
  predicate NumeralPattern(s: string) {
    UnsignedNumeral(s) || (0 < |s| && s[0] == '+' && UnsignedNumeral(s[1..]))
  }

  /** The string after an optional leading plus sign. */
  function Unsigned(s: string): string {
    if 0 < |s| && s[0] == '+' then s[1..] else s
  }

  predicate IsNumeralChar(c: char) {
    IsAsciiDigit(c) || c == '.'
  }

  /** A numeral is, after an optional `+`, a non-empty string of digits and
      dots with at most one dot, neither first nor last. So a sign `-`, an
      exponent or a comma is always rejected. */
  lemma NumeralPatternMeaning(s: string)
    ensures NumeralPattern(s) <==>
      var t := Unsigned(s);
      && 0 < |t|
      && (forall i :: 0 <= i < |t| ==> IsNumeralChar(t[i]))
      && (forall i, j :: 0 <= i < j < |t| && t[i] == '.' ==> t[j] != '.')
      && t[0] != '.' && t[|t| - 1] != '.'
  {
  }

  /** Decimal renderings of non-negative integers are numerals (the form's
      initial price and seats, 0, are valid). */
  lemma DecimalIsNumeral(n: nat)
    ensures NumeralPattern(Decimal(n))
  {
  }

  /** `^[a-zA-Z\s]*$` (city): ASCII letters and white space only, so any
      digit, hyphen, dot or accented letter is flagged. */
  function CityPattern(s: string): (ok: bool)
    ensures ok ==> forall i :: 0 <= i < |s| ==> !IsAsciiDigit(s[i]) && s[i] != '-' && s[i] != '.'
    ensures ok ==> forall i :: 0 <= i < |s| ==> s[i] as int < 0x80 || IsWhiteSpace(s[i])
    ensures ok ==> forall i :: 0 <= i < |s| ==> IsTitleChar(s[i]) || IsWhiteSpace(s[i])
  {
    forall i :: 0 <= i < |s| ==> IsAsciiLetter(s[i]) || IsWhiteSpace(s[i])
  }

  /** `[0-1]?[0-9]|2[0-3]`: the hour part. */
  predicate HourPattern(h: string) {
    || (|h| == 1 && IsAsciiDigit(h[0]))
    || (|h| == 2 && '0' <= h[0] <= '1' && IsAsciiDigit(h[1]))
    || (|h| == 2 && h[0] == '2' && '0' <= h[1] <= '3')
  }

  /** `^([0-1]?[0-9]|2[0-3]):[0-5][0-9]$` (startTime): an hour part of k
      characters, a colon, two minute digits. */
  predicate TimePattern(s: string) {
    exists k | 1 <= k <= 2 :: |s| == k + 3 && HourPattern(s[..k]) && s[k] == ':' && '0' <= s[k + 1] <= '5' && IsAsciiDigit(s[k + 2])
  }

  /** A start time is `H:MM` or `HH:MM` whose hour is at most 23 and whose
      minutes are at most 59. */
  lemma TimePatternMeaning(s: string)
    ensures TimePattern(s) <==>
      && (|s| == 4 || |s| == 5)
      && s[|s| - 3] == ':'
      && AllDigits(s[..|s| - 3]) && AllDigits(s[|s| - 2..])
      && DigitsValue(s[..|s| - 3]) <= 23
      && DigitsValue(s[|s| - 2..]) <= 59
  {
    if |s| == 4 || |s| == 5 {
      var k := |s| - 3;
      var h, m := s[..k], s[k + 1..];
      if AllDigits(h) && AllDigits(m) {
        TwoDigitValue(m);
        assert DigitValue(m[0]) <= 5 <==> '0' <= s[k + 1] <= '5';
        if k == 2 {
          TwoDigitValue(h);
        }
        assert HourPattern(h) <==> DigitsValue(h) <= 23;
      }
      assert TimePattern(s) ==> AllDigits(h) && AllDigits(m);
    }
  }
}
