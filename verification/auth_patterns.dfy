/**
 * The regular expressions the sign-up and login forms share: email and
 * password (the same literals in both forms) and the sign-up username.
 */
module AuthPatterns {
  import opened Chars

  predicate AllAlnum(s: string) {
    forall i :: 0 <= i < |s| ==> IsAsciiAlnum(s[i])
  }

  predicate AllLetters(s: string) {
    forall i :: 0 <= i < |s| ==> IsAsciiLetter(s[i])
  }

  /** `^[a-zA-Z0-9]+@[a-zA-Z0-9]+\.[A-Za-z]+$`: a local part, `@` at
      position at, a domain, `.` at position dot, a top-level part of letters;
      each part non-empty. */
  predicate EmailPattern(s: string) {
    exists at, dot | 0 < at && at + 1 < dot < |s| - 1 ::
      && AllAlnum(s[..at]) && s[at] == '@'
      && AllAlnum(s[at + 1..dot]) && s[dot] == '.'
      && AllLetters(s[dot + 1..])
  }

  /** The character c occurs in s at position p and nowhere else. */
  predicate OccursOnlyAt(s: string, c: char, p: int) {
    && 0 <= p < |s| && s[p] == c
    && forall i :: 0 <= i < |s| && s[i] == c ==> i == p
  }

  /** One `@` at position at and one `.` at position dot, the `@` first,
      with at least one character before the `@`, between the two and after
      the `.`; letters and digits everywhere else, letters only after the `.`. */
  predicate EmailShape(s: string, at: int, dot: int) {
    && 0 < at && at + 1 < dot < |s| - 1
    && OccursOnlyAt(s, '@', at) && OccursOnlyAt(s, '.', dot)
    && (forall i :: 0 <= i < dot && i != at ==> IsAsciiAlnum(s[i]))
    && (forall i :: dot < i < |s| ==> IsAsciiLetter(s[i]))
  }

  /** An email is accepted exactly when it has the shape above. */
  lemma EmailPatternMeaning(s: string)
    ensures EmailPattern(s) <==> exists at, dot :: EmailShape(s, at, dot)
  {
    if EmailPattern(s) {
      var at, dot :| 0 < at && at + 1 < dot < |s| - 1
        && AllAlnum(s[..at]) && s[at] == '@'
        && AllAlnum(s[at + 1..dot]) && s[dot] == '.'
        && AllLetters(s[dot + 1..]);
      PatternHasShape(s, at, dot);
    }
    if exists at, dot :: EmailShape(s, at, dot) {
      var at, dot :| EmailShape(s, at, dot);
      ShapeMatchesPattern(s, at, dot);
    }
  }

  lemma PatternHasShape(s: string, at: int, dot: int)
    requires 0 < at && at + 1 < dot < |s| - 1
    requires AllAlnum(s[..at]) && s[at] == '@'
    requires AllAlnum(s[at + 1..dot]) && s[dot] == '.'
    requires AllLetters(s[dot + 1..])
    ensures EmailShape(s, at, dot)
  {
    forall i | 0 <= i < |s| && i != at && i != dot
      ensures IsAsciiAlnum(s[i]) && (dot < i ==> IsAsciiLetter(s[i]))
    {
      if i < at {
        assert s[..at][i] == s[i];
      } else if i < dot {
        assert s[at + 1..dot][i - at - 1] == s[i];
      } else {
        assert s[dot + 1..][i - dot - 1] == s[i];
      }
    }
  }

  lemma ShapeMatchesPattern(s: string, at: int, dot: int)
    requires EmailShape(s, at, dot)
    ensures EmailPattern(s)
  {
    var local, domain, top := s[..at], s[at + 1..dot], s[dot + 1..];
    assert AllAlnum(local) by {
      forall i | 0 <= i < |local| ensures IsAsciiAlnum(local[i]) {
        assert local[i] == s[i];
      }
    }
    assert AllAlnum(domain) by {
      forall i | 0 <= i < |domain| ensures IsAsciiAlnum(domain[i]) {
        assert domain[i] == s[at + 1 + i];
      }
    }
    assert AllLetters(top) by {
      forall i | 0 <= i < |top| ensures IsAsciiLetter(top[i]) {
        assert top[i] == s[dot + 1 + i];
      }
    }
  }

  /** `^[A-Za-z0-9]+$` (username). */
  predicate UsernamePattern(s: string) {
    0 < |s| && AllAlnum(s)
  }

  /** The username expression accepts exactly the non-empty strings of ASCII
      letters and digits. */
  lemma UsernamePatternMeaning(s: string)
    ensures UsernamePattern(s) <==>
      0 < |s| && forall i :: 0 <= i < |s| ==> 'A' <= s[i] <= 'Z' || 'a' <= s[i] <= 'z' || '0' <= s[i] <= '9'
  {
  }

  /** `^.{5,}$` (password): no line terminator and at least five UTF-16 code
      units. Five characters always suffice; three supplementary-plane
      characters already do; in the Basic Multilingual Plane the bound is
      exactly five characters. */
  function PasswordPattern(s: string): (ok: bool)
    ensures ok ==> 3 <= |s|
    ensures 5 <= |s| && (forall i :: 0 <= i < |s| ==> !IsLineTerminator(s[i])) ==> ok
    ensures AllBmp(s) ==> (ok <==> 5 <= |s| && forall i :: 0 <= i < |s| ==> !IsLineTerminator(s[i]))
  {
    && (forall i :: 0 <= i < |s| ==> !IsLineTerminator(s[i]))
    && 5 <= Utf16Length(s)
  }
}
