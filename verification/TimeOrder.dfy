/** How the ISO texts of instants sort as strings, compared with how the instants sort. */
module TimeOrder {
  import opened Text
  import opened Calendar

  // ---- order of concatenations --------------------------------------------------

  predicate Before(a: string, b: string) { Le(a, b) && a != b }

  /** Texts of one length that differ decide the order of anything that starts with them. */
  lemma {:induction false} PrefixDecides(p: string, q: string, s: string, t: string)
    requires |p| == |q| && Before(p, q)
    ensures Before(p + s, q + t)
  {
    assert p == [p[0]] + p[1..] && q == [q[0]] + q[1..];
    assert (p + s)[1..] == p[1..] + s && (q + t)[1..] == q[1..] + t;
    if p[0] == q[0] { PrefixDecides(p[1..], q[1..], s, t); }
  }

  lemma {:induction false} CommonPrefix(p: string, s: string, t: string)
    ensures Le(p + s, p + t) <==> Le(s, t)
  {
    if p == [] {
      assert p + s == s && p + t == t;
    } else {
      assert (p + s)[1..] == p[1..] + s && (p + t)[1..] == p[1..] + t;
      CommonPrefix(p[1..], s, t);
    }
  }

  lemma CommonPrefixBefore(p: string, s: string, t: string)
    requires Before(s, t)
    ensures Before(p + s, p + t)
  {
    CommonPrefix(p, s, t);
    assert (p + s)[|p|..] == s && (p + t)[|p|..] == t;
  }

  /** The first character that differs decides, and a text comes before its extensions. */
  lemma CodePointOrder(p: string, c: char, d: char, s: string, t: string)
    requires c < d
    ensures Before(p + ([c] + s), p + ([d] + t)) && !Le(p + ([d] + t), p + ([c] + s))
    ensures Before(p, p + ([c] + s)) && !Le(p + ([c] + s), p)
  {
    var x, y := [c] + s, [d] + t;
    assert x[0] == c && y[0] == d;
    CommonPrefix(p, x, y);
    CommonPrefix(p, y, x);
    CommonPrefixBefore(p, x, y);
    CommonPrefix(p, [], x);
    CommonPrefix(p, x, []);
    assert p + [] == p && |p + x| > |p|;
  }

  /** Zero-padded numbers sort as numbers. */
  lemma {:induction false} PaddedOrder(m: nat, n: nat, width: nat)
    requires m < n < Pow10(width)
    ensures Before(Padded(m, width), Padded(n, width))
  {
    var a, b := Padded(m / 10, width - 1), Padded(n / 10, width - 1);
    if m / 10 < n / 10 {
      PaddedOrder(m / 10, n / 10, width - 1);
      PrefixDecides(a, b, [Digit(m % 10)], [Digit(n % 10)]);
    } else {
      assert m % 10 < n % 10 && Digit(m % 10) < Digit(n % 10);
      CommonPrefixBefore(a, [Digit(m % 10)], [Digit(n % 10)]);
    }
  }

  // ---- dates and clocks ---------------------------------------------------------

  /** Three fields of fixed width with separators sort field by field. */
  lemma FieldsOrder(a: string, b: string, c: string, x: string, y: string, z: string, sep: string)
    requires |a| == |x| && |b| == |y| && |c| == |z|
    requires Before(a, x) || (a == x && (Before(b, y) || (b == y && Before(c, z))))
    ensures Before(a + sep + b + sep + c, x + sep + y + sep + z)
  {
    var s, t := sep + b + sep + c, sep + y + sep + z;
    assert a + sep + b + sep + c == a + s && x + sep + y + sep + z == x + t;
    if a != x {
      PrefixDecides(a, x, s, t);
    } else {
      TwoFieldsOrder(b, c, y, z, sep);
      assert s == sep + (b + sep + c) && t == sep + (y + sep + z);
      CommonPrefixBefore(sep, b + sep + c, y + sep + z);
      CommonPrefixBefore(a, s, t);
    }
  }

  lemma TwoFieldsOrder(b: string, c: string, y: string, z: string, sep: string)
    requires |b| == |y| && |c| == |z| && (Before(b, y) || (b == y && Before(c, z)))
    ensures Before(b + sep + c, y + sep + z)
  {
    assert b + sep + c == b + (sep + c) && y + sep + z == y + (sep + z);
    if b != y {
      PrefixDecides(b, y, sep + c, sep + z);
    } else {
      CommonPrefixBefore(sep, c, z);
      CommonPrefixBefore(b, sep + c, sep + z);
    }
  }

  lemma {:induction false} MonthsAscend(year: int, a: int, b: int)
    requires 1 <= a <= b <= 13
    ensures DaysBeforeMonth(year, a) <= DaysBeforeMonth(year, b)
    decreases b - a
  {
    if a < b { MonthsAscend(year, a, b - 1); }
  }

  /** A later day has a later year, or the same year and a later month, or a later day of one month. */
  lemma DatesAscend(m: int, n: int)
    requires 1 <= m < n
    ensures var d, e := FromOrdinal(m), FromOrdinal(n);
      d.year < e.year || (d.year == e.year && (d.month < e.month || (d.month == e.month && d.day < e.day)))
  {
    hide FromOrdinal, DaysBeforeYear, DaysBeforeMonth;
    var d, e := FromOrdinal(m), FromOrdinal(n);
    WithinYear(d);
    WithinYear(e);
    if e.year < d.year { YearsAscend(e.year + 1, d.year); }
    if e.year == d.year && e.month < d.month { MonthsAscend(d.year, e.month + 1, d.month); }
  }

  lemma WithinYear(d: Date)
    requires ValidDate(d)
    ensures DaysBeforeYear(d.year) < ToOrdinal(d) <= DaysBeforeYear(d.year + 1)
    ensures ToOrdinal(d) <= DaysBeforeYear(d.year) + DaysBeforeMonth(d.year, d.month + 1)
  {
    YearLength(d.year);
    MonthsFillYear(d.year);
    MonthsAscend(d.year, d.month + 1, 13);
  }

  lemma IsoDateOrder(m: int, n: int)
    requires ValidDay(m) && ValidDay(n) && m < n
    ensures Before(IsoDate(m), IsoDate(n))
  {
    hide FromOrdinal, Before, Padded;
    var d, e := FromOrdinal(m), FromOrdinal(n);
    DatesAscend(m, n);
    YearFits(m);
    YearFits(n);
    Powers();
    if d.year < e.year { PaddedOrder(d.year, e.year, 4); }
    else if d.month < e.month { PaddedOrder(d.month, e.month, 2); }
    else { PaddedOrder(d.day, e.day, 2); }
    FieldsOrder(Padded(d.year, 4), Padded(d.month, 2), Padded(d.day, 2), Padded(e.year, 4), Padded(e.month, 2), Padded(e.day, 2), "-");
  }

  function SecondOfDay(ts: int): (p: int)
    ensures 0 <= p < 86400
  {
    ts % DAY_MICROS / 1_000_000
  }

  lemma ClockOrder(a: int, b: int)
    requires SecondOfDay(a) < SecondOfDay(b)
    ensures Before(ClockText(a), ClockText(b))
  {
    hide Before, Padded;
    var p, q := SecondOfDay(a), SecondOfDay(b);
    HourMinuteSecond(p);
    HourMinuteSecond(q);
    Powers();
    if p / 3600 < q / 3600 { PaddedOrder(p / 3600, q / 3600, 2); }
    else if p / 60 % 60 < q / 60 % 60 { PaddedOrder(p / 60 % 60, q / 60 % 60, 2); }
    else { PaddedOrder(p % 60, q % 60, 2); }
    FieldsOrder(Padded(p / 3600, 2), Padded(p / 60 % 60, 2), Padded(p % 60, 2),
                Padded(q / 3600, 2), Padded(q / 60 % 60, 2), Padded(q % 60, 2), ":");
  }

  // ---- instants -----------------------------------------------------------------

  /** `isoformat()` with the UTC offset written `Z`. */
  function IsoZ(ts: int): string
    requires ValidInstant(ts)
  {
    SecondsText(ts) + (if Micros(ts) == 0 then "Z" else "." + Padded(Micros(ts), 6) + "Z")
  }

  predicate SameSecond(a: int, b: int) { DayOf(a) == DayOf(b) && SecondOfDay(a) == SecondOfDay(b) }

  lemma EarlierSecond(a: int, b: int)
    requires a < b
    ensures DayOf(a) < DayOf(b)
      || (DayOf(a) == DayOf(b) && (SecondOfDay(a) < SecondOfDay(b) || (SameSecond(a, b) && Micros(a) < Micros(b))))
  {
    assert a == DAY_MICROS * DayOf(a) + a % DAY_MICROS && b == DAY_MICROS * DayOf(b) + b % DAY_MICROS;
  }

  lemma SecondsTextOrder(a: int, b: int)
    requires ValidInstant(a) && ValidInstant(b) && a < b && !SameSecond(a, b)
    ensures Before(SecondsText(a), SecondsText(b))
  {
    hide IsoDate, ClockText, Before, DayOf, SecondOfDay;
    EarlierSecond(a, b);
    var s, t := "T" + ClockText(a), "T" + ClockText(b);
    assert SecondsText(a) == IsoDate(DayOf(a)) + s && SecondsText(b) == IsoDate(DayOf(b)) + t;
    if DayOf(a) < DayOf(b) {
      IsoDateOrder(DayOf(a), DayOf(b));
      PrefixDecides(IsoDate(DayOf(a)), IsoDate(DayOf(b)), s, t);
    } else {
      ClockOrder(a, b);
      CommonPrefixBefore("T", ClockText(a), ClockText(b));
      CommonPrefixBefore(IsoDate(DayOf(a)), s, t);
    }
  }

  /** The fraction of a second as it is written. */
  function Fraction(micros: int): string
    requires 0 <= micros < 1_000_000
  {
    if micros == 0 then "Z" else "." + Padded(micros, 6) + "Z"
  }

  lemma FractionOrder(m: int, n: int)
    requires 0 <= m < n < 1_000_000
    ensures if m == 0 then Before(Fraction(n), Fraction(m)) else Before(Fraction(m), Fraction(n))
  {
    if m > 0 {
      Powers();
      PaddedOrder(m, n, 6);
      assert Fraction(m) == "." + (Padded(m, 6) + "Z") && Fraction(n) == "." + (Padded(n, 6) + "Z");
      PrefixDecides(Padded(m, 6), Padded(n, 6), "Z", "Z");
      CommonPrefixBefore(".", Padded(m, 6) + "Z", Padded(n, 6) + "Z");
    } else {
      assert Fraction(n)[0] == '.' && Fraction(m)[0] == 'Z';
    }
  }

  /**
   The texts of two instants sort as the instants do, except within one second when the earlier instant is
   a whole second: its text then comes after the later one's.
   */
  lemma IsoOrder(a: int, b: int)
    requires ValidInstant(a) && ValidInstant(b) && a < b
    ensures Before(IsoZ(a), IsoZ(b)) <==> !(SameSecond(a, b) && Micros(a) == 0)
    ensures Before(IsoZ(b), IsoZ(a)) <==> SameSecond(a, b) && Micros(a) == 0
  {
    hide Le, DayOf, SecondOfDay, SecondsText;
    assert IsoZ(a) == SecondsText(a) + Fraction(Micros(a)) && IsoZ(b) == SecondsText(b) + Fraction(Micros(b));
    LeTotal(IsoZ(a), IsoZ(b));
    EarlierSecond(a, b);
    if !SameSecond(a, b) {
      SecondsTextOrder(a, b);
      PrefixDecides(SecondsText(a), SecondsText(b), Fraction(Micros(a)), Fraction(Micros(b)));
    } else {
      SameSecondText(a, b);
      FractionOrder(Micros(a), Micros(b));
      if Micros(a) == 0 { CommonPrefixBefore(SecondsText(a), Fraction(Micros(b)), Fraction(Micros(a))); }
      else { CommonPrefixBefore(SecondsText(a), Fraction(Micros(a)), Fraction(Micros(b))); }
    }
  }

  lemma SameSecondText(a: int, b: int)
    requires ValidInstant(a) && ValidInstant(b) && SameSecond(a, b)
    ensures SecondsText(a) == SecondsText(b)
  {
  }
}
