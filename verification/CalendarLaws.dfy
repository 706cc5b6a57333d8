/** The calendar pinned to the real one: known dates, texts as they are written, and the alert date in calendar terms. */
module CalendarLaws {
  import opened Text
  import opened Calendar
  import opened BusinessDays
  import opened TimeOrder

  // ---- known dates --------------------------------------------------------------

  /** The days before the first of each month; `leap` counts the 29th of February. */
  lemma MonthStarts(year: int)
    ensures var leap := if year % 4 == 0 && (year % 100 != 0 || year % 400 == 0) then 1 else 0;
      && DaysBeforeMonth(year, 1) == 0 && DaysBeforeMonth(year, 2) == 31 && DaysBeforeMonth(year, 3) == 59 + leap
      && DaysBeforeMonth(year, 4) == 90 + leap && DaysBeforeMonth(year, 5) == 120 + leap
      && DaysBeforeMonth(year, 6) == 151 + leap && DaysBeforeMonth(year, 7) == 181 + leap
      && DaysBeforeMonth(year, 8) == 212 + leap && DaysBeforeMonth(year, 9) == 243 + leap
      && DaysBeforeMonth(year, 10) == 273 + leap && DaysBeforeMonth(year, 11) == 304 + leap
      && DaysBeforeMonth(year, 12) == 334 + leap && DaysBeforeMonth(year, 13) == 365 + leap
  {
    var feb := DaysInMonth(year, 2);
    assert DaysBeforeMonth(year, 3) == DaysBeforeMonth(year, 2) + feb;
    assert DaysBeforeMonth(year, 5) == DaysBeforeMonth(year, 4) + 30 == DaysBeforeMonth(year, 3) + 61;
    assert DaysBeforeMonth(year, 7) == DaysBeforeMonth(year, 6) + 30 == DaysBeforeMonth(year, 5) + 61;
    assert DaysBeforeMonth(year, 9) == DaysBeforeMonth(year, 8) + 31 == DaysBeforeMonth(year, 7) + 62;
    assert DaysBeforeMonth(year, 11) == DaysBeforeMonth(year, 10) + 31 == DaysBeforeMonth(year, 9) + 61;
    assert DaysBeforeMonth(year, 13) == DaysBeforeMonth(year, 12) + 31 == DaysBeforeMonth(year, 11) + 61;
  }

  lemma YearStarts()
    ensures DaysBeforeYear(1) == 0 && DaysBeforeYear(1900) == 693595 && DaysBeforeYear(1970) == 719162 && DaysBeforeYear(2000) == 730119
    ensures DaysBeforeYear(2024) == 738885 && DaysBeforeYear(2025) == 739251 && DaysBeforeYear(9999) == 3651694
  {
  }

  lemma LeapYears()
    ensures !IsLeap(1) && !IsLeap(1900) && !IsLeap(1970) && IsLeap(2000) && IsLeap(2024) && !IsLeap(2025) && !IsLeap(9999)
  {
  }

  lemma FebruaryLengths(year: int)
    ensures DaysBeforeMonth(year, 2) == 31 && DaysBeforeMonth(year, 3) == if IsLeap(year) then 60 else 59
    ensures DaysBeforeMonth(year, 8) == if IsLeap(year) then 213 else 212
    ensures DaysBeforeMonth(year, 12) == if IsLeap(year) then 335 else 334
  {
    hide DaysBeforeMonth;
    MonthStarts(year);
  }

  /** Days as the Gregorian calendar numbers them. */
  lemma EarlyDays()
    ensures ToOrdinal(Date(1, 1, 1)) == 1 && ToOrdinal(Date(1900, 3, 1)) == 693655 && ToOrdinal(Date(1970, 1, 1)) == 719163
  {
    hide DaysBeforeYear, DaysBeforeMonth, ToOrdinal;
    YearStarts();
    LeapYears();
    FebruaryLengths(1900);
    JanuaryStart(1);
    JanuaryStart(1970);
    Ordinal(Date(1, 1, 1), 0, 0);
    Ordinal(Date(1900, 3, 1), 693595, 59);
    Ordinal(Date(1970, 1, 1), 719162, 0);
  }

  lemma RecentDays()
    ensures ToOrdinal(Date(2000, 12, 31)) == 730485 && ToOrdinal(Date(2024, 2, 29)) == 738945
    ensures ToOrdinal(Date(2025, 8, 15)) == 739478 && ToOrdinal(Date(9999, 12, 31)) == 3652059
  {
    hide DaysBeforeYear, DaysBeforeMonth, ToOrdinal;
    YearStarts();
    LeapYears();
    FebruaryLengths(2000);
    FebruaryLengths(2024);
    FebruaryLengths(2025);
    FebruaryLengths(9999);
    Ordinal(Date(2000, 12, 31), 730119, 335);
    Ordinal(Date(2024, 2, 29), 738885, 31);
    Ordinal(Date(2025, 8, 15), 739251, 212);
    Ordinal(Date(9999, 12, 31), 3651694, 334);
  }

  lemma JanuaryStart(year: int) ensures DaysBeforeMonth(year, 1) == 0 {}

  lemma Ordinal(d: Date, years: int, months: int)
    requires 1 <= d.month <= 12 && DaysBeforeYear(d.year) == years && DaysBeforeMonth(d.year, d.month) == months
    ensures ToOrdinal(d) == years + months + d.day
  {
    hide DaysBeforeYear, DaysBeforeMonth;
  }

  /** Their weekdays: Monday is 0. */
  lemma KnownWeekdays()
    ensures Weekday(1) == 0 && Weekday(719163) == 3 && Weekday(730485) == 6 && Weekday(738945) == 3 && Weekday(739478) == 4
  {
  }

  /** Day numbers and dates from year 1 on correspond one to one. */
  lemma DateOfOrdinal(d: Date)
    requires ValidDate(d) && d.year >= 1
    ensures 1 <= ToOrdinal(d) && FromOrdinal(ToOrdinal(d)) == d
  {
    hide DaysBeforeYear, DaysBeforeMonth, FromOrdinal;
    WithinYear(d);
    YearsAscend(1, d.year);
    assert DaysBeforeYear(1) == 0 by { FirstYear(); }
    var e := FromOrdinal(ToOrdinal(d));
    WithinYear(e);
    if e.year < d.year { YearsAscend(e.year + 1, d.year); }
    if d.year < e.year { YearsAscend(d.year + 1, e.year); }
    if e.month < d.month { MonthsAscend(d.year, e.month + 1, d.month); }
    if d.month < e.month { MonthsAscend(d.year, d.month + 1, e.month); }
  }

  lemma FirstYear() ensures DaysBeforeYear(1) == 0 {}

  // ---- texts --------------------------------------------------------------------

  /** Two digits or four, read as a number. */
  function Reads(s: string): int
    requires forall i :: 0 <= i < |s| ==> '0' <= s[i] <= '9'
  {
    if s == [] then 0 else 10 * Reads(s[..|s| - 1]) + (s[|s| - 1] as int - '0' as int)
  }

  lemma {:induction false} PaddedReads(n: nat, width: nat)
    requires n < Pow10(width)
    ensures Reads(Padded(n, width)) == n
  {
    if width > 0 {
      PaddedReads(n / 10, width - 1);
      assert Padded(n, width)[..width - 1] == Padded(n / 10, width - 1);
    }
  }

  /** Year, month and day of a text with a separator after the fourth and the seventh character. */
  ghost predicate Spells(s: string, separator: char, d: Date) {
    && |s| == 10 && s[4] == s[7] == separator
    && (forall i :: 0 <= i < 10 && i != 4 && i != 7 ==> '0' <= s[i] <= '9')
    && Reads(s[..4]) == d.year && Reads(s[5..7]) == d.month && Reads(s[8..]) == d.day
  }

  /** ISO dates and export folders spell the calendar date: year, month, day in this order. */
  lemma DayTextsSpell(n: int)
    requires ValidDay(n)
    ensures Spells(IsoDate(n), '-', FromOrdinal(n)) && Spells(DayPath(n), '/', FromOrdinal(n))
  {
    hide FromOrdinal, Padded;
    var d, s, t := FromOrdinal(n), IsoDate(n), DayPath(n);
    YearFits(n);
    Powers();
    PaddedReads(d.year, 4);
    PaddedReads(d.month, 2);
    PaddedReads(d.day, 2);
    assert s[..4] == t[..4] == Padded(d.year, 4) && s[5..7] == t[5..7] == Padded(d.month, 2) && s[8..] == t[8..] == Padded(d.day, 2);
  }

  /** 15 August 2025. */
  lemma KnownTexts(n: int)
    requires n == 739478
    ensures IsoDate(n) == "2025-08-15" && DayPath(n) == "2025/08/15"
  {
    hide FromOrdinal, Padded, ToOrdinal, IsoDate, DayPath;
    var d := Date(2025, 8, 15);
    KnownDate(n, d);
    KnownPadding();
    FieldsOfDay(n, d, "2025", "08", "15");
  }

  lemma KnownDate(n: int, d: Date)
    requires n == 739478 && d == Date(2025, 8, 15)
    ensures FromOrdinal(n) == d
  {
    hide FromOrdinal, ToOrdinal;
    RecentDays();
    DateOfOrdinal(d);
  }

  lemma FieldsOfDay(n: int, d: Date, year: string, month: string, day: string)
    requires ValidDay(n) && FromOrdinal(n) == d && 0 <= d.year
    requires Padded(d.year, 4) == year && Padded(d.month, 2) == month && Padded(d.day, 2) == day
    ensures IsoDate(n) == year + "-" + month + "-" + day && DayPath(n) == year + "/" + month + "/" + day
  {
    hide FromOrdinal, Padded;
  }

  lemma KnownPadding()
    ensures Padded(2025, 4) == "2025" && Padded(8, 2) == "08" && Padded(15, 2) == "15"
  {
    assert Padded(2, 1) == "2" && Padded(20, 2) == "20" && Padded(202, 3) == "202";
    assert Padded(0, 1) == "0" && Padded(1, 1) == "1";
  }

  // ---- instants -----------------------------------------------------------------

  ghost predicate Digits(s: string) { forall i :: 0 <= i < |s| ==> '0' <= s[i] <= '9' }

  /** Nineteen characters YYYY-MM-DDTHH:MM:SS that name the second the instant lies in. */
  ghost predicate TellsSecond(s: string, ts: int) {
    && |s| == 19 && s[4] == s[7] == '-' && s[10] == 'T' && s[13] == s[16] == ':'
    && Digits(s[..4]) && Digits(s[5..7]) && Digits(s[8..10]) && Digits(s[11..13]) && Digits(s[14..16]) && Digits(s[17..])
    && 1 <= Reads(s[5..7]) <= 12 && Reads(s[11..13]) < 24 && Reads(s[14..16]) < 60 && Reads(s[17..]) < 60
    && 86_400 * ToOrdinal(Date(Reads(s[..4]), Reads(s[5..7]), Reads(s[8..10])))
       + 3600 * Reads(s[11..13]) + 60 * Reads(s[14..16]) + Reads(s[17..]) == ts / 1_000_000
  }

  /** A point and six digits: the microseconds of the instant. */
  ghost predicate TellsMicros(s: string, ts: int) {
    |s| == 7 && s[0] == '.' && Digits(s[1..]) && Reads(s[1..]) == ts % 1_000_000
  }

  lemma InstantSplits(ts: int)
    ensures Micros(ts) == ts % 1_000_000 && 86_400 * DayOf(ts) + ts % DAY_MICROS / 1_000_000 == ts / 1_000_000
  {
    var d, r := ts / DAY_MICROS, ts % DAY_MICROS;
    Quotient(ts, 86_400 * d + r / 1_000_000, r % 1_000_000);
  }

  lemma Quotient(x: int, q: int, r: int)
    requires x == 1_000_000 * q + r && 0 <= r < 1_000_000
    ensures x / 1_000_000 == q && x % 1_000_000 == r
  {
  }

  lemma ClockTells(ts: int)
    ensures var s := ClockText(ts);
      && s[2] == s[5] == ':' && Digits(s[..2]) && Digits(s[3..5]) && Digits(s[6..])
      && Reads(s[..2]) < 24 && Reads(s[3..5]) < 60 && Reads(s[6..]) < 60
      && 3600 * Reads(s[..2]) + 60 * Reads(s[3..5]) + Reads(s[6..]) == ts % DAY_MICROS / 1_000_000
  {
    hide Padded;
    var p, s := ts % DAY_MICROS / 1_000_000, ClockText(ts);
    assert 0 <= p < 86_400;
    assert s[..2] == Padded(p / 3600, 2) && s[3..5] == Padded(p / 60 % 60, 2) && s[6..] == Padded(p % 60, 2);
    Powers();
    PaddedReads(p / 3600, 2);
    PaddedReads(p / 60 % 60, 2);
    PaddedReads(p % 60, 2);
    HourMinuteSecond(p);
  }

  lemma SecondsTextTells(ts: int)
    requires ValidInstant(ts)
    ensures TellsSecond(SecondsText(ts), ts)
  {
    hide FromOrdinal, ToOrdinal, IsoDate, ClockText, DayOf, Reads;
    var day, clock, s := IsoDate(DayOf(ts)), ClockText(ts), SecondsText(ts);
    DayTextsSpell(DayOf(ts));
    ClockTells(ts);
    InstantSplits(ts);
    assert s[..4] == day[..4] && s[5..7] == day[5..7] && s[8..10] == day[8..];
    assert s[11..13] == clock[..2] && s[14..16] == clock[3..5] && s[17..] == clock[6..];
    assert s[4] == day[4] && s[7] == day[7] && s[13] == clock[2] && s[16] == clock[5];
    DigitsOf(day);
  }

  lemma DigitsOf(day: string)
    requires |day| == 10 && forall i :: 0 <= i < 10 && i != 4 && i != 7 ==> '0' <= day[i] <= '9'
    ensures Digits(day[..4]) && Digits(day[5..7]) && Digits(day[8..])
  {
  }

  lemma MicrosTell(ts: int)
    ensures TellsMicros("." + Padded(Micros(ts), 6), ts)
  {
    hide Padded;
    var s := "." + Padded(Micros(ts), 6);
    assert s[1..] == Padded(Micros(ts), 6);
    Powers();
    PaddedReads(Micros(ts), 6);
    InstantSplits(ts);
  }

  /** The texts of the orphan report: the second, a fraction only when there is one, and the offset `Z`. */
  lemma IsoZTells(ts: int)
    requires ValidInstant(ts)
    ensures if ts % 1_000_000 == 0 then |IsoZ(ts)| == 20 && TellsSecond(IsoZ(ts)[..19], ts) && IsoZ(ts)[19..] == "Z"
            else |IsoZ(ts)| == 27 && TellsSecond(IsoZ(ts)[..19], ts) && TellsMicros(IsoZ(ts)[19..26], ts) && IsoZ(ts)[26..] == "Z"
  {
    hide SecondsText, TellsSecond, TellsMicros, Padded, Micros;
    SecondsTextTells(ts);
    MicrosTell(ts);
    InstantSplits(ts);
    var s := IsoZ(ts);
    assert s[..19] == SecondsText(ts);
    if Micros(ts) != 0 { assert s[19..26] == "." + Padded(Micros(ts), 6); }
  }

  // ---- the alert date -----------------------------------------------------------

  /** Months counted from the year 0, so that a month's neighbours are its number plus and minus one. */
  function MonthNumber(d: Date): int { 12 * d.year + d.month }

  /**
   The alert date lies exactly two calendar months before the term end, on the same day of the month or, in
   a shorter month, on its last day. Only the first two months of year 1 have no date two months back.
   */
  lemma AlertDateInCalendarTerms(termEnd: int)
    requires 1 <= termEnd && MonthNumber(FromOrdinal(termEnd)) >= 15
    ensures 1 <= AlertDate(termEnd)
    ensures var d, r := FromOrdinal(termEnd), FromOrdinal(AlertDate(termEnd));
      && 12 * r.year + r.month == 12 * d.year + d.month - 2
      && r.day == (if d.day < DaysInMonth(r.year, r.month) then d.day else DaysInMonth(r.year, r.month))
  {
    hide FromOrdinal, ToOrdinal;
    var d := FromOrdinal(termEnd);
    MonthsBack(d.year, d.month);
    DateOfOrdinal(TwoMonthsBack(d));
  }

  /** The day is on or after the same day of the month two months before the term end, clamped. */
  ghost predicate WithinTwoMonths(day: int, termEnd: int)
    requires 1 <= day && 1 <= termEnd
  {
    var t, d := FromOrdinal(day), FromOrdinal(termEnd);
    12 * t.year + t.month > 12 * d.year + d.month - 2
    || (12 * t.year + t.month == 12 * d.year + d.month - 2 && (t.day >= d.day || t.day == DaysInMonth(t.year, t.month)))
  }

  /** The alert date is the first day within two months. */
  lemma AlertDateIsFirst(day: int, termEnd: int)
    requires 1 <= day && 1 <= termEnd
    ensures AlertDate(termEnd) <= day <==> WithinTwoMonths(day, termEnd)
  {
    hide FromOrdinal, ToOrdinal, AlertDate;
    var t, d := FromOrdinal(day), FromOrdinal(termEnd);
    if MonthNumber(d) >= 15 {
      AlertDateInCalendarTerms(termEnd);
      var a := AlertDate(termEnd);
      if day < a { DatesAscend(day, a); }
      if a < day { DatesAscend(a, day); }
    } else {
      EarlyTerms(termEnd);
    }
  }

  lemma EarlyTerms(termEnd: int)
    requires 1 <= termEnd && MonthNumber(FromOrdinal(termEnd)) < 15
    ensures AlertDate(termEnd) <= 0
  {
    hide FromOrdinal, DaysBeforeMonth;
    var d := FromOrdinal(termEnd);
    MonthsBack(d.year, d.month);
    var r := TwoMonthsBack(d);
    assert r.year == 0 && ValidDate(r);
    WithinYear(r);
    FirstYear();
  }
}
