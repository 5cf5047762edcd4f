/**
 * The event form's date logic: the `yyyy-mm-dd` string of today's date, built
 * from the clock's year, zero-based month and day of the month, and the date
 * error shown when the chosen date sorts before it.
 */
module EventDates {
  import opened Chars

  /** The two decimal digits of a number below 100. */
  function TwoDigits(n: nat): (s: string)
    requires n < 100
    ensures |s| == 2 && AllDigits(s) && DigitsValue(s) == n
  {
    var s := [DigitChar(n / 10), DigitChar(n % 10)];
    TwoDigitValue(s);
    s
  }

  /** The `currentDateFinal` string: the year's decimal digits, then the
      month (getMonth() + 1) and the day, each with one leading `0` when below
      10, so that both are always exactly two digits. */
  method CurrentDateFinal(fullYear: nat, month: nat, day: nat) returns (today: string)
    requires month < 12 && 1 <= day <= 31
    ensures today == Decimal(fullYear) + "-" + TwoDigits(month + 1) + "-" + TwoDigits(day)
  {
    var currentYear := Decimal(fullYear);
    var currentMonth := month + 1;
    var currentDay := day;
    var monthText := Decimal(currentMonth);
    if currentMonth < 10 {
      monthText := "0" + monthText;
    }
    var dayText := Decimal(currentDay);
    if currentDay < 10 {
      dayText := "0" + dayText;
    }
    PaddedDecimal(currentMonth);
    PaddedDecimal(currentDay);
    today := currentYear + "-" + monthText + "-" + dayText;
  }

  /** Prefixing `0` below ten and nothing from ten on gives the two digits. */
  lemma PaddedDecimal(n: nat)
    requires 1 <= n < 100
    ensures (if n < 10 then "0" + Decimal(n) else Decimal(n)) == TwoDigits(n)
  {
  }

  /** A well-formed `yyyy-mm-dd` string, as a date input reports it. */
  predicate IsDateString(s: string) {
    && |s| == 10
    && AllDigits(s[..4]) && s[4] == '-'
    && AllDigits(s[5..7]) && s[7] == '-'
    && AllDigits(s[8..])
  }

  function YearOf(s: string): nat requires IsDateString(s) { DigitsValue(s[..4]) }
  function MonthOf(s: string): nat requires IsDateString(s) { DigitsValue(s[5..7]) }
  function DayOf(s: string): nat requires IsDateString(s) { DigitsValue(s[8..]) }

  /** `a` is a day before `b`: an earlier year, or the same year and an
      earlier month, or the same month and an earlier day. */
  predicate Earlier(a: string, b: string)
    requires IsDateString(a) && IsDateString(b)
  {
    || YearOf(a) < YearOf(b)
    || (YearOf(a) == YearOf(b) && MonthOf(a) < MonthOf(b))
    || (YearOf(a) == YearOf(b) && MonthOf(a) == MonthOf(b) && DayOf(a) < DayOf(b))
  }

  /** Today's string is a well-formed date for a four-digit year, and it
      denotes the clock's year, month and day. */
  lemma TodayIsDateString(fullYear: nat, month: nat, day: nat)
    requires 1000 <= fullYear <= 9999 && month < 12 && 1 <= day <= 31
    ensures var today := Decimal(fullYear) + "-" + TwoDigits(month + 1) + "-" + TwoDigits(day);
      && IsDateString(today)
      && YearOf(today) == fullYear && MonthOf(today) == month + 1 && DayOf(today) == day
  {
    var y := Decimal(fullYear);
    assert 1 <= fullYear / 10 / 10 / 10 <= 9;
    assert |Decimal(fullYear / 10 / 10)| == 2;
    assert |Decimal(fullYear / 10)| == 3;
    assert |y| == 4;
    var today := y + "-" + TwoDigits(month + 1) + "-" + TwoDigits(day);
    assert today[..4] == y;
    assert today[5..7] == TwoDigits(month + 1);
    assert today[8..] == TwoDigits(day);
  }

  /** JavaScript's `<` on strings: lexicographic, a proper prefix first. */
  predicate LexLess(a: string, b: string) {
    if b == [] then false
    else if a == [] then true
    else if a[0] != b[0] then a[0] < b[0]
    else LexLess(a[1..], b[1..])
  }

  /** JavaScript's `<` on strings is a strict total order: never both ways,
      never between equal strings, and one way or the other between different
      strings. */
  lemma {:induction false} LexLessStrictTotal(a: string, b: string)
    ensures LexLess(a, b) ==> !LexLess(b, a) && a != b
    ensures a != b ==> LexLess(a, b) || LexLess(b, a)
  {
    if a != [] && b != [] && a[0] == b[0] {
      LexLessStrictTotal(a[1..], b[1..]);
      assert a == [a[0]] + a[1..] && b == [b[0]] + b[1..];
    }
  }

  lemma {:induction false} LexLessTransitive(a: string, b: string, c: string)
    requires LexLess(a, b) && LexLess(b, c)
    ensures LexLess(a, c)
  {
    if a != [] && a[0] == b[0] && b[0] == c[0] {
      LexLessTransitive(a[1..], b[1..], c[1..]);
    }
  }

  /** The date error of the date field: a date was chosen and it sorts
      before today's string. */
  predicate DateError(date: string, today: string) {
    LexLess(date, today) && date != ""
  }

  /** Comparing two concatenations whose first parts have equal length. */
  lemma {:induction false} LexLessAppend(a1: string, a2: string, b1: string, b2: string)
    requires |a1| == |b1|
    ensures LexLess(a1 + a2, b1 + b2) <==> LexLess(a1, b1) || (a1 == b1 && LexLess(a2, b2))
  {
    if a1 == [] {
      assert a1 + a2 == a2 && b1 + b2 == b2;
    } else {
      assert (a1 + a2)[0] == a1[0] && (b1 + b2)[0] == b1[0];
      assert (a1 + a2)[1..] == a1[1..] + a2 && (b1 + b2)[1..] == b1[1..] + b2;
      LexLessAppend(a1[1..], a2, b1[1..], b2);
      if a1[0] == b1[0] {
        assert a1 == b1 <==> a1[1..] == b1[1..] by {
          assert a1 == [a1[0]] + a1[1..] && b1 == [b1[0]] + b1[1..];
        }
      }
    }
  }

  /** For digit strings of equal length, `<` is numeric order. */
  lemma {:induction false} LexLessDigits(a: string, b: string)
    requires |a| == |b| && AllDigits(a) && AllDigits(b)
    ensures LexLess(a, b) <==> DigitsValue(a) < DigitsValue(b)
  {
    if a != [] {
      var n := |a|;
      var a1, b1 := a[..n - 1], b[..n - 1];
      assert a == a1 + [a[n - 1]] && b == b1 + [b[n - 1]];
      LexLessAppend(a1, [a[n - 1]], b1, [b[n - 1]]);
      LexLessDigits(a1, b1);
      if DigitsValue(a1) == DigitsValue(b1) {
        DigitsValueInjective(a1, b1);
      }
    }
  }

  /** On well-formed date strings the form's date error is exactly
      "the chosen date is before today". */
  lemma DateErrorMeansPast(date: string, today: string)
    requires IsDateString(date) && IsDateString(today)
    ensures DateError(date, today) <==> Earlier(date, today)
  {
    LexLessDate(date, today);
  }

  /** String order on well-formed dates is chronological order. */
  lemma {:induction false} LexLessDate(a: string, b: string)
    requires IsDateString(a) && IsDateString(b)
    ensures LexLess(a, b) <==> Earlier(a, b)
  {
    var ya, ma, da := a[..4], a[5..7], a[8..];
    var yb, mb, db := b[..4], b[5..7], b[8..];
    LexLessDigits(ya, yb);
    LexLessDigits(ma, mb);
    LexLessDigits(da, db);
    if DigitsValue(ya) == DigitsValue(yb) { DigitsValueInjective(ya, yb); }
    if DigitsValue(ma) == DigitsValue(mb) { DigitsValueInjective(ma, mb); }
    // after the month: a dash, then the day
    var ta, tb := a[7..], b[7..];
    assert ta == "-" + da && tb == "-" + db;
    LexLessAppend("-", da, "-", db);
    assert LexLess(ta, tb) <==> LexLess(da, db);
    // after the year: a dash, the month, the rest
    var ra, rb := a[4..], b[4..];
    assert ra == "-" + (ma + ta) && rb == "-" + (mb + tb);
    LexLessAppend("-", ma + ta, "-", mb + tb);
    LexLessAppend(ma, ta, mb, tb);
    assert LexLess(ra, rb) <==> LexLess(ma, mb) || (ma == mb && LexLess(da, db));
    assert a == ya + ra && b == yb + rb;
    LexLessAppend(ya, ra, yb, rb);
  }
}
