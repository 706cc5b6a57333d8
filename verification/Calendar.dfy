/**
 Calendar days as proleptic Gregorian ordinals (day 1 is 0001-01-01, a Monday), instants as
 microseconds, and the ISO 8601 texts the audit rows and object keys are built from.
 */
module Calendar {
  import opened Text

  datatype Date = Date(year: int, month: int, day: int)

  predicate IsLeap(year: int) { year % 4 == 0 && (year % 100 != 0 || year % 400 == 0) }

  function DaysInMonth(year: int, month: int): (n: int)
    requires 1 <= month <= 12
    ensures 28 <= n <= 31
  {
    if month == 2 then if IsLeap(year) then 29 else 28
    else if month == 4 || month == 6 || month == 9 || month == 11 then 30
    else 31
  }

  function DaysInYear(year: int): int { if IsLeap(year) then 366 else 365 }

  /** Days before the first of January of `year`. */
  function DaysBeforeYear(year: int): int {
    365 * (year - 1) + (year - 1) / 4 - (year - 1) / 100 + (year - 1) / 400
  }

  lemma YearLength(year: int)
    ensures DaysBeforeYear(year + 1) == DaysBeforeYear(year) + DaysInYear(year)
  {
    Quotient4(year);
    Quotient100(year);
    Quotient400(year);
    LeapNests(year);
  }

  lemma Quotient4(n: int) ensures n / 4 == (n - 1) / 4 + if n % 4 == 0 then 1 else 0 {}

  lemma Quotient100(n: int) ensures n / 100 == (n - 1) / 100 + if n % 100 == 0 then 1 else 0 {}

  lemma Quotient400(n: int) ensures n / 400 == (n - 1) / 400 + if n % 400 == 0 then 1 else 0 {}

  lemma LeapNests(n: int)
    ensures n % 400 == 0 ==> n % 100 == 0
    ensures n % 100 == 0 ==> n % 4 == 0
  {
    if n % 400 == 0 {
      assert n == 100 * (4 * (n / 400));
      Multiple100(4 * (n / 400));
    }
    if n % 100 == 0 {
      assert n == 4 * (25 * (n / 100));
      Multiple4(25 * (n / 100));
    }
  }

  lemma Multiple100(k: int) ensures 100 * k % 100 == 0 {}

  lemma Multiple4(k: int) ensures 4 * k % 4 == 0 {}

  function DaysBeforeMonth(year: int, month: int): (n: int)
    requires 1 <= month <= 13
    ensures 28 * (month - 1) <= n <= 31 * (month - 1)
  {
    if month == 1 then 0 else DaysBeforeMonth(year, month - 1) + DaysInMonth(year, month - 1)
  }

  lemma MonthsFillYear(year: int)
    ensures DaysBeforeMonth(year, 13) == DaysInYear(year)
  {
    var feb := DaysInMonth(year, 2);
    assert DaysBeforeMonth(year, 3) == DaysBeforeMonth(year, 2) + feb == 31 + feb;
    assert DaysBeforeMonth(year, 5) == DaysBeforeMonth(year, 4) + 30 == 92 + feb;
    assert DaysBeforeMonth(year, 7) == DaysBeforeMonth(year, 6) + 30 == 153 + feb;
    assert DaysBeforeMonth(year, 9) == DaysBeforeMonth(year, 8) + 31 == 215 + feb;
    assert DaysBeforeMonth(year, 11) == DaysBeforeMonth(year, 10) + 31 == 276 + feb;
    assert DaysBeforeMonth(year, 13) == DaysBeforeMonth(year, 12) + 31 == 337 + feb;
  }

  ghost predicate ValidDate(d: Date) {
    1 <= d.month <= 12 && 1 <= d.day <= DaysInMonth(d.year, d.month)
  }

  function ToOrdinal(d: Date): int
    requires 1 <= d.month <= 12
  {
    DaysBeforeYear(d.year) + DaysBeforeMonth(d.year, d.month) + d.day
  }

  const MAX_ORDINAL := 3652059  // 9999-12-31

  predicate ValidDay(n: int) { 1 <= n <= MAX_ORDINAL }

  /** The year, from `year` on, that holds day `n`. */
  function YearFrom(n: int, year: int): (y: int)
    requires DaysBeforeYear(year) < n
    ensures year <= y && DaysBeforeYear(y) < n <= DaysBeforeYear(y + 1)
    decreases n - DaysBeforeYear(year)
  {
    YearLength(year);
    if n <= DaysBeforeYear(year + 1) then year else YearFrom(n, year + 1)
  }

  /** The month, from `month` on, that holds day `n` of `year`. */
  function MonthFrom(n: int, year: int, month: int): (m: int)
    requires 1 <= month <= 12
    requires DaysBeforeMonth(year, month) < n <= DaysBeforeMonth(year, 13)
    ensures month <= m <= 12 && DaysBeforeMonth(year, m) < n <= DaysBeforeMonth(year, m + 1)
    decreases 12 - month
  {
    if n <= DaysBeforeMonth(year, month + 1) then month else MonthFrom(n, year, month + 1)
  }

  function FromOrdinal(n: int): (d: Date)
    requires 1 <= n
    ensures ValidDate(d) && ToOrdinal(d) == n && d.year >= 1
  {
    var y := YearFrom(n, 1);
    YearLength(y);
    MonthsFillYear(y);
    var m := MonthFrom(n - DaysBeforeYear(y), y, 1);
    Date(y, m, n - DaysBeforeYear(y) - DaysBeforeMonth(y, m))
  }

  lemma {:induction false} YearsAscend(a: int, b: int)
    requires a <= b
    ensures DaysBeforeYear(a) + 365 * (b - a) <= DaysBeforeYear(b)
    decreases b - a
  {
    if a < b {
      YearsAscend(a, b - 1);
      YearLength(b - 1);
    }
  }

  lemma YearFits(n: int)
    requires ValidDay(n)
    ensures 1 <= FromOrdinal(n).year <= 9999
  {
    var d := FromOrdinal(n);
    assert DaysBeforeYear(10000) == MAX_ORDINAL;
    if d.year >= 10000 { YearsAscend(10000, d.year); }
  }

  // ---- two calendar months back -------------------------------------------------

  function TwoMonthsBack(d: Date): (r: Date)
    ensures 1 <= r.month <= 12
  {
    var months := 12 * d.year + (d.month - 1) - 2;
    var year, month := months / 12, months % 12 + 1;
    Date(year, month, if d.day < DaysInMonth(year, month) then d.day else DaysInMonth(year, month))
  }

  /** The renewal alert date: two calendar months before `termEnd`, cut to the end of a shorter month. */
  function AlertDate(termEnd: int): int
    requires 1 <= termEnd
  {
    ToOrdinal(TwoMonthsBack(FromOrdinal(termEnd)))
  }

  lemma MonthsBack(year: int, month: int)
    requires 1 <= month <= 12
    ensures (12 * year + (month - 1) - 2) / 12 == if month > 2 then year else year - 1
    ensures (12 * year + (month - 1) - 2) % 12 + 1 == if month > 2 then month - 2 else month + 10
  {
  }

  /** The days in the two months before the first of `month`. */
  lemma TwoMonthsBefore(year: int, month: int)
    requires 1 <= month <= 12
    ensures month > 2 ==>
      DaysBeforeMonth(year, month) == DaysBeforeMonth(year, month - 2) + DaysInMonth(year, month - 2) + DaysInMonth(year, month - 1)
    ensures month == 2 ==>
      DaysBeforeYear(year) + DaysBeforeMonth(year, 2) == DaysBeforeYear(year - 1) + DaysBeforeMonth(year - 1, 12) + 62
    ensures month == 1 ==>
      DaysBeforeYear(year) == DaysBeforeYear(year - 1) + DaysBeforeMonth(year - 1, 11) + 61
  {
    YearLength(year - 1);
    MonthsFillYear(year - 1);
    assert DaysBeforeMonth(year - 1, 13) == DaysBeforeMonth(year - 1, 12) + 31;
    assert DaysBeforeMonth(year - 1, 12) == DaysBeforeMonth(year - 1, 11) + 30;
    if month > 2 {
      assert DaysBeforeMonth(year, month - 1) == DaysBeforeMonth(year, month - 2) + DaysInMonth(year, month - 2);
    }
  }

  /** Two calendar months are 59 to 62 days, so the alert always falls well before the term ends. */
  lemma AlertLead(termEnd: int)
    requires 1 <= termEnd
    ensures 59 <= termEnd - AlertDate(termEnd) <= 62
  {
    ClampedLead(FromOrdinal(termEnd));
  }

  lemma ClampedLead(d: Date)
    requires ValidDate(d)
    ensures 59 <= ToOrdinal(d) - ToOrdinal(TwoMonthsBack(d)) <= 62
  {
    MonthsBack(d.year, d.month);
    var r := TwoMonthsBack(d);
    assert r.year == (if d.month > 2 then d.year else d.year - 1) && r.month == if d.month > 2 then d.month - 2 else d.month + 10;
    TwoMonthsBefore(d.year, d.month);
    if d.month > 2 {
      TwoMonthsLong(d.year, d.month);
    }
  }

  lemma TwoMonthsLong(year: int, month: int)
    requires 3 <= month <= 12
    ensures 59 <= DaysInMonth(year, month - 2) + DaysInMonth(year, month - 1) <= 62
    ensures DaysInMonth(year, month - 2) < DaysInMonth(year, month) ==> DaysInMonth(year, month - 1) == 31 || month == 3 || month == 4
  {
  }

  // ---- texts --------------------------------------------------------------------

  /** `date.isoformat()`: YYYY-MM-DD. */
  function IsoDate(n: int): (s: string)
    requires ValidDay(n)
    ensures |s| == 10
  {
    var d := FromOrdinal(n);
    YearFits(n);
    Padded(d.year, 4) + "-" + Padded(d.month, 2) + "-" + Padded(d.day, 2)
  }

  /** YYYY/MM/DD, the folder of one day's export. */
  function DayPath(n: int): (s: string)
    requires ValidDay(n)
    ensures |s| == 10
  {
    var d := FromOrdinal(n);
    YearFits(n);
    Padded(d.year, 4) + "/" + Padded(d.month, 2) + "/" + Padded(d.day, 2)
  }

  /** Ten characters with the digits at the same places as in `IsoDate` and `DayPath` name one day. */
  lemma DayTextsDistinct(m: int, n: int, a: string, b: string)
    requires ValidDay(m) && ValidDay(n)
    requires |a| == |b| == 1
    requires Padded(FromOrdinal(m).year, 4) + a + Padded(FromOrdinal(m).month, 2) + b + Padded(FromOrdinal(m).day, 2)
          == Padded(FromOrdinal(n).year, 4) + a + Padded(FromOrdinal(n).month, 2) + b + Padded(FromOrdinal(n).day, 2)
    ensures m == n
  {
    hide FromOrdinal, Padded;
    var d, e := FromOrdinal(m), FromOrdinal(n);
    YearFits(m);
    YearFits(n);
    var s := Padded(d.year, 4) + a + Padded(d.month, 2) + b + Padded(d.day, 2);
    var t := Padded(e.year, 4) + a + Padded(e.month, 2) + b + Padded(e.day, 2);
    assert s[..4] == Padded(d.year, 4) && s[5..7] == Padded(d.month, 2) && s[8..] == Padded(d.day, 2);
    assert t[..4] == Padded(e.year, 4) && t[5..7] == Padded(e.month, 2) && t[8..] == Padded(e.day, 2);
    Powers();
    PaddedInjective(d.year, e.year, 4);
    PaddedInjective(d.month, e.month, 2);
    PaddedInjective(d.day, e.day, 2);
  }

  lemma Powers()
    ensures Pow10(2) == 100 && Pow10(4) == 10000 && Pow10(6) == 1000000
  {
    assert Pow10(1) == 10 && Pow10(3) == 1000 && Pow10(5) == 100000;
  }

  lemma IsoDateInjective(m: int, n: int)
    requires ValidDay(m) && ValidDay(n) && IsoDate(m) == IsoDate(n)
    ensures m == n
  {
    DayTextsDistinct(m, n, "-", "-");
  }

  lemma DayPathInjective(m: int, n: int)
    requires ValidDay(m) && ValidDay(n) && DayPath(m) == DayPath(n)
    ensures m == n
  {
    DayTextsDistinct(m, n, "/", "/");
  }

  // ---- instants -----------------------------------------------------------------

  const DAY_MICROS := 86_400_000_000

  /** The UTC day an instant falls on; midnight of day `d` is instant `d * DAY_MICROS`. */
  function DayOf(ts: int): int { ts / DAY_MICROS }

  predicate ValidInstant(ts: int) { ValidDay(DayOf(ts)) }

  /** HH:MM:SS of an instant. */
  function ClockText(ts: int): (s: string)
    ensures |s| == 8
  {
    var second := ts % DAY_MICROS / 1_000_000;
    Padded(second / 3600, 2) + ":" + Padded(second / 60 % 60, 2) + ":" + Padded(second % 60, 2)
  }

  function Micros(ts: int): (n: int)
    ensures 0 <= n < 1_000_000
  {
    ts % DAY_MICROS % 1_000_000
  }

  /** `isoformat()` cut at whole seconds: nineteen characters. */
  function SecondsText(ts: int): (s: string)
    requires ValidInstant(ts)
    ensures |s| == 19
  {
    IsoDate(DayOf(ts)) + "T" + ClockText(ts)
  }

  lemma SecondsTextDetermines(a: int, b: int)
    requires ValidInstant(a) && ValidInstant(b)
    requires SecondsText(a) == SecondsText(b) && Micros(a) == Micros(b)
    ensures a == b
  {
    var s, t := SecondsText(a), SecondsText(b);
    assert s[..10] == IsoDate(DayOf(a)) && t[..10] == IsoDate(DayOf(b));
    assert s[11..] == ClockText(a) && t[11..] == ClockText(b);
    IsoDateInjective(DayOf(a), DayOf(b));
    ClockDetermines(a, b);
  }

  lemma ClockDetermines(a: int, b: int)
    requires ClockText(a) == ClockText(b)
    ensures a % DAY_MICROS / 1_000_000 == b % DAY_MICROS / 1_000_000
  {
    var s, t := ClockText(a), ClockText(b);
    var p, q := a % DAY_MICROS / 1_000_000, b % DAY_MICROS / 1_000_000;
    assert s[..2] == Padded(p / 3600, 2) && s[3..5] == Padded(p / 60 % 60, 2) && s[6..] == Padded(p % 60, 2);
    assert t[..2] == Padded(q / 3600, 2) && t[3..5] == Padded(q / 60 % 60, 2) && t[6..] == Padded(q % 60, 2);
    Powers();
    PaddedInjective(p / 3600, q / 3600, 2);
    PaddedInjective(p / 60 % 60, q / 60 % 60, 2);
    PaddedInjective(p % 60, q % 60, 2);
    HourMinuteSecond(p);
    HourMinuteSecond(q);
  }

  lemma HourMinuteSecond(p: int)
    ensures p == 3600 * (p / 3600) + 60 * (p / 60 % 60) + p % 60
  {
    assert p / 3600 == p / 60 / 60;
  }
}
