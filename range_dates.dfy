/** The date parameters of the /range endpoint (server/routes/contentRoutes.js):
    `isValidDate` accepts a string of the exact shape YYYY-MM-DD that the
    JavaScript Date constructor then parses, and the handler compares two
    such dates by the instants they denote. */
module RangeDates {
  import opened Outcomes

  /** A date as written in the parameter, digits read as numbers. */
  datatype DateTriple = DateTriple(year: nat, month: nat, day: nat)

  predicate IsDigit(c: char)
  {
    '0' <= c <= '9'
  }

  predicate AllDigits(s: string)
  {
    forall i | 0 <= i < |s| :: IsDigit(s[i])
  }

  function DigitValue(c: char): (d: nat)
    requires IsDigit(c)
    ensures d < 10
  {
    (c as int) - ('0' as int)
  }

  function DigitChar(d: nat): (c: char)
    requires d < 10
    ensures IsDigit(c) && DigitValue(c) == d
  {
    (('0' as int) + d) as char
  }

  function Pow10(n: nat): (p: nat)
    ensures p >= 1
  {
    if n == 0 then 1 else 10 * Pow10(n - 1)
  }

  /** The decimal value of a string of digits. */
  function Number(s: string): nat
    requires AllDigits(s)
  {
    if s == [] then 0 else 10 * Number(s[..|s| - 1]) + DigitValue(s[|s| - 1])
  }

  /** `n` written with exactly `width` digits, zero-padded on the left. */
  function Padded(n: nat, width: nat): (s: string)
    requires n < Pow10(width)
    ensures |s| == width && AllDigits(s)
  {
    if width == 0 then [] else Padded(n / 10, width - 1) + [DigitChar(n % 10)]
  }

  /** The regular expression /^\d{4}-\d{2}-\d{2}$/: ten characters, dashes at
      positions 4 and 7, ASCII digits everywhere else. */
  predicate MatchesDatePattern(s: string)
    ensures MatchesDatePattern(s) <==>
              |s| == 10 && forall i | 0 <= i < |s| :: if i == 4 || i == 7 then s[i] == '-' else IsDigit(s[i])
  {
    assert |s| == 10 ==> forall i | 0 <= i < 4 :: s[..4][i] == s[i];
    assert |s| == 10 ==> forall i | 5 <= i < 7 :: s[5..7][i - 5] == s[i];
    assert |s| == 10 ==> forall i | 8 <= i < 10 :: s[8..][i - 8] == s[i];
    && |s| == 10
    && s[4] == '-' && s[7] == '-'
    && AllDigits(s[..4]) && AllDigits(s[5..7]) && AllDigits(s[8..])
  }

  /** Reads the three fields of a string of the YYYY-MM-DD shape. */
  function ParseDate(s: string): (r: Option<DateTriple>)
    ensures r.Some? <==> MatchesDatePattern(s)
  {
    if MatchesDatePattern(s) then
      Some(DateTriple(Number(s[..4]), Number(s[5..7]), Number(s[8..])))
    else
      None
  }

  /** Writes a date in the YYYY-MM-DD shape. */
  function FormatDate(t: DateTriple): (s: string)
    requires t.year < 10000 && t.month < 100 && t.day < 100
    ensures MatchesDatePattern(s)
  {
    Padded(t.year, 4) + "-" + Padded(t.month, 2) + "-" + Padded(t.day, 2)
  }

  /** What `new Date("YYYY-MM-DD")` is taken to accept beyond the pattern: a
      month from 1 to 12 and a day from 1 to 31, whatever the month's real
      length. This is the ISO date-only form; it is the whole story for the
      years 0000 and 0032 to 9999, where a string the ISO form refuses is not
      read as a date in any other way either. */
  predicate DateParses(t: DateTriple)
  {
    1 <= t.month <= 12 && 1 <= t.day <= 31
  }

  /** isValidDate(dateString): the pattern, then a month from 1 to 12 and a
      day from 1 to 31. */
  predicate IsValidDate(s: string)
    ensures IsValidDate(s) <==>
              MatchesDatePattern(s)
              && 1 <= Number(s[5..7]) <= 12
              && 1 <= Number(s[8..]) <= 31
  {
    match ParseDate(s)
    case None => false
    case Some(t) => DateParses(t)
  }

  predicate IsLeapYear(y: nat)
  {
    y % 4 == 0 && (y % 100 != 0 || y % 400 == 0)
  }

  function DaysInMonth(y: nat, m: nat): (n: nat)
    requires 1 <= m <= 12
    ensures 28 <= n <= 31
  {
    if m == 2 then (if IsLeapYear(y) then 29 else 28)
    else if m == 4 || m == 6 || m == 9 || m == 11 then 30
    else 31
  }

  /** Days from the first of January of year `y` to the first of month `m`
      (m == 13 gives the length of the year). */
  function DaysBeforeMonth(y: nat, m: nat): nat
    requires 1 <= m <= 13
  {
    if m == 1 then 0 else DaysBeforeMonth(y, m - 1) + DaysInMonth(y, m - 1)
  }

  /** Days from 0000-01-01 to the first of January of year `y`. */
  function DaysBeforeYear(y: nat): nat
  {
    if y == 0 then 0 else DaysBeforeYear(y - 1) + DaysBeforeMonth(y - 1, 13)
  }

  /** The day a parsed date denotes, counted from 0000-01-01. A day past the
      end of its month runs on into the next month, as the Date constructor
      composes year, month and day. */
  function DayNumber(t: DateTriple): int
    requires 1 <= t.month <= 12
  {
    DaysBeforeYear(t.year) + DaysBeforeMonth(t.year, t.month) + t.day - 1
  }

  /** `new Date(a) < new Date(b)` for two valid date strings: both denote
      midnight UTC, so the earlier string is the one with the smaller day.
      For dates that exist in the calendar this is year, then month, then
      day order; it is never true both ways. */
  predicate Earlier(a: string, b: string)
    requires IsValidDate(a) && IsValidDate(b)
    ensures var ta, tb := ParseDate(a).value, ParseDate(b).value;
            IsCalendarDate(ta) && IsCalendarDate(tb) ==> (Earlier(a, b) <==> TripleBefore(ta, tb))
    ensures Earlier(a, b) ==> a != b
  {
    var ta, tb := ParseDate(a).value, ParseDate(b).value;
    assert IsCalendarDate(ta) && IsCalendarDate(tb) ==> (DayNumber(ta) < DayNumber(tb) <==> TripleBefore(ta, tb)) by {
      if IsCalendarDate(ta) && IsCalendarDate(tb) {
        CalendarOrderIsChronological(ta, tb);
      }
    }
    DayNumber(ta) < DayNumber(tb)
  }

  /** A date that exists in the Gregorian calendar. */
  predicate IsCalendarDate(t: DateTriple)
  {
    1 <= t.month <= 12 && 1 <= t.day <= DaysInMonth(t.year, t.month)
  }

  /** Field-by-field order: year, then month, then day. */
  predicate TripleBefore(a: DateTriple, b: DateTriple)
  {
    a.year < b.year
    || (a.year == b.year && a.month < b.month)
    || (a.year == b.year && a.month == b.month && a.day < b.day)
  }

  // ---------------------------------------------------------------------
  // The pattern check and the parse

  lemma {:induction false} NumberBelowPow10(s: string)
    requires AllDigits(s)
    ensures Number(s) < Pow10(|s|)
  {
    if s != [] {
      NumberBelowPow10(s[..|s| - 1]);
    }
  }

  lemma {:induction false} NumberOfPadded(n: nat, width: nat)
    requires n < Pow10(width)
    ensures Number(Padded(n, width)) == n
  {
    if width > 0 {
      var s := Padded(n, width);
      assert s[..|s| - 1] == Padded(n / 10, width - 1);
      NumberOfPadded(n / 10, width - 1);
    }
  }

  lemma {:induction false} PaddedOfNumber(s: string)
    requires AllDigits(s)
    ensures Number(s) < Pow10(|s|) && Padded(Number(s), |s|) == s
  {
    NumberBelowPow10(s);
    if s != [] {
      var init := s[..|s| - 1];
      PaddedOfNumber(init);
      assert Number(s) / 10 == Number(init);
      assert s == init + [s[|s| - 1]];
    }
  }

  /** Reading back a written date gives the date. */
  lemma ParseFormatRoundTrip(t: DateTriple)
    requires t.year < 10000 && t.month < 100 && t.day < 100
    ensures ParseDate(FormatDate(t)) == Some(t)
  {
    var s := FormatDate(t);
    assert s[..4] == Padded(t.year, 4);
    assert s[5..7] == Padded(t.month, 2);
    assert s[8..] == Padded(t.day, 2);
    NumberOfPadded(t.year, 4);
    NumberOfPadded(t.month, 2);
    NumberOfPadded(t.day, 2);
  }

  /** Writing a parsed date gives back the very string: the parse reads every
      character, so two different strings never parse to the same date. */
  lemma FormatParseRoundTrip(s: string)
    requires MatchesDatePattern(s)
    ensures var t := ParseDate(s).value;
            t.year < 10000 && t.month < 100 && t.day < 100 && FormatDate(t) == s
  {
    PaddedOfNumber(s[..4]);
    PaddedOfNumber(s[5..7]);
    PaddedOfNumber(s[8..]);
    assert s == s[..4] + "-" + s[5..7] + "-" + s[8..];
  }

  /** The strings of the unit tests: "15-10-2023" and "invalid" are rejected,
      "2023-10-15" is accepted. */
  lemma PatternExamples()
    ensures !IsValidDate("15-10-2023")
    ensures !IsValidDate("invalid")
    ensures !IsValidDate("")
    ensures IsValidDate("2023-10-15") && ParseDate("2023-10-15") == Some(DateTriple(2023, 10, 15))
  {
    assert "15-10-2023"[4] == '0';
    var s := "2023-10-15";
    assert s[..4] == "2023" && s[5..7] == "10" && s[8..] == "15";
    assert Number("2023") == 2023 by {
      assert "2023"[..3] == "202" && "202"[..2] == "20" && "20"[..1] == "2";
    }
    assert Number("10") == 10 by { assert "10"[..1] == "1"; }
    assert Number("15") == 15 by { assert "15"[..1] == "1"; }
  }

  // ---------------------------------------------------------------------
  // The comparison of two dates

  lemma {:induction false} MonthsAdvance(y: nat, m1: nat, m2: nat)
    requires 1 <= m1 < m2 <= 13
    ensures DaysBeforeMonth(y, m1) + DaysInMonth(y, m1) <= DaysBeforeMonth(y, m2)
  {
    if m2 > m1 + 1 {
      MonthsAdvance(y, m1, m2 - 1);
    }
  }

  lemma {:induction false} YearsAdvance(y1: nat, y2: nat)
    requires y1 < y2
    ensures DaysBeforeYear(y1) + DaysBeforeMonth(y1, 13) <= DaysBeforeYear(y2)
  {
    if y2 > y1 + 1 {
      YearsAdvance(y1, y2 - 1);
    }
  }

  /** Every calendar date falls inside its own year. */
  lemma DayWithinYear(t: DateTriple)
    requires IsCalendarDate(t)
    ensures DayNumber(t) < DaysBeforeYear(t.year) + DaysBeforeMonth(t.year, 13)
  {
    MonthsAdvance(t.year, t.month, 13);
  }

  lemma TripleBeforeIsEarlier(a: DateTriple, b: DateTriple)
    requires IsCalendarDate(a) && IsCalendarDate(b) && TripleBefore(a, b)
    ensures DayNumber(a) < DayNumber(b)
  {
    if a.year < b.year {
      DayWithinYear(a);
      YearsAdvance(a.year, b.year);
    } else if a.month < b.month {
      MonthsAdvance(a.year, a.month, b.month);
    }
  }

  /** On dates that exist in the calendar, comparing the instants is the same
      as comparing year, month and day in turn. */
  lemma CalendarOrderIsChronological(a: DateTriple, b: DateTriple)
    requires IsCalendarDate(a) && IsCalendarDate(b)
    ensures DayNumber(a) < DayNumber(b) <==> TripleBefore(a, b)
  {
    if TripleBefore(a, b) {
      TripleBeforeIsEarlier(a, b);
    } else if TripleBefore(b, a) {
      TripleBeforeIsEarlier(b, a);
    }
  }

  /** Equal strings are never earlier than each other. */
  lemma NotEarlierThanItself(s: string)
    requires IsValidDate(s)
    ensures !Earlier(s, s)
  {
  }

  /** Days past the end of a month pass the check and run on into the next
      month: "2023-02-30" is valid and falls after "2023-03-01". */
  lemma OverflowingDayExample()
    ensures IsValidDate("2023-02-30") && IsValidDate("2023-03-01")
    ensures Earlier("2023-03-01", "2023-02-30")
  {
    var a, b := "2023-02-30", "2023-03-01";
    assert a[..4] == "2023" && a[5..7] == "02" && a[8..] == "30";
    assert b[..4] == "2023" && b[5..7] == "03" && b[8..] == "01";
    assert Number("2023") == 2023 by {
      assert "2023"[..3] == "202" && "202"[..2] == "20" && "20"[..1] == "2";
    }
    assert Number("02") == 2 by { assert "02"[..1] == "0"; }
    assert Number("30") == 30 by { assert "30"[..1] == "3"; }
    assert Number("03") == 3 by { assert "03"[..1] == "0"; }
    assert Number("01") == 1 by { assert "01"[..1] == "0"; }
    assert DaysBeforeMonth(2023, 3) == 59;
  }
}
