/** Monday-to-Friday arithmetic of the schedulers. A day is its ordinal; ordinal 1 was a Monday. */
module BusinessDays {

  /** `date.weekday()`: 0 is Monday, 5 and 6 the weekend. */
  function Weekday(day: int): (w: int)
    ensures 0 <= w < 7
  {
    (day + 6) % 7
  }

  predicate IsBusinessDay(day: int) { Weekday(day) < 5 }

  /** The business days among the days after `earlier` up to and including `later`. */
  ghost function BusinessDaySet(earlier: int, later: int): set<int> {
    set d | earlier < d <= later && IsBusinessDay(d)
  }

  /** Business days in the first `d` days counted from a fixed Monday: five a week and at most five of the rest. */
  function Rank(d: int): int {
    5 * ((d + 6) / 7) + if (d + 6) % 7 < 5 then (d + 6) % 7 else 5
  }

  /** The closed form of the count: no loop, only whole weeks and two remainders. */
  function CountBetween(earlier: int, later: int): int {
    if later <= earlier then 0 else Rank(later + 1) - Rank(earlier + 1)
  }

  lemma RankStep(d: int)
    ensures Rank(d + 1) == Rank(d) + if IsBusinessDay(d) then 1 else 0
  {
    var q, r := (d + 6) / 7, (d + 6) % 7;
    assert d + 6 == 7 * q + r;
    if r == 6 {
      assert (d + 7) / 7 == q + 1 && (d + 7) % 7 == 0;
    } else {
      assert (d + 7) / 7 == q && (d + 7) % 7 == r + 1;
    }
  }

  lemma RankWeek(d: int)
    ensures Rank(d + 7) == Rank(d) + 5
  {
    assert (d + 13) / 7 == (d + 6) / 7 + 1;
  }

  /** The day-by-day loop of the alert scheduler. */
  method BusinessDaysBetween(earlier: int, later: int) returns (days: int)
    ensures days == CountBetween(earlier, later)
    ensures days == |BusinessDaySet(earlier, later)|
  {
    if later <= earlier {
      assert BusinessDaySet(earlier, later) == {};
      return 0;
    }
    days := 0;
    var cursor := earlier;
    assert BusinessDaySet(earlier, cursor) == {};
    while cursor < later
      invariant earlier <= cursor <= later
      invariant days == Rank(cursor + 1) - Rank(earlier + 1)
      invariant days == |BusinessDaySet(earlier, cursor)|
      decreases later - cursor
    {
      RankStep(cursor + 1);
      ghost var before := BusinessDaySet(earlier, cursor);
      cursor := cursor + 1;
      if IsBusinessDay(cursor) {
        assert BusinessDaySet(earlier, cursor) == before + {cursor};
        days := days + 1;
      } else {
        assert BusinessDaySet(earlier, cursor) == before;
      }
    }
  }

  lemma {:induction false} RankMonotone(a: int, b: int)
    requires a <= b
    ensures Rank(a) <= Rank(b)
    decreases b - a
  {
    if a < b {
      RankMonotone(a, b - 1);
      RankStep(b - 1);
    }
  }

  /** Counts over adjoining intervals add up; a longer interval never counts less; whole weeks count five each. */
  lemma CountLaws(earlier: int, mid: int, later: int)
    requires mid <= later
    ensures 0 <= CountBetween(earlier, mid) <= CountBetween(earlier, later)
    ensures earlier <= mid ==> CountBetween(earlier, later) == CountBetween(earlier, mid) + CountBetween(mid, later)
  {
    RankMonotone(mid + 1, later + 1);
    if earlier < mid { RankMonotone(earlier + 1, mid + 1); }
    if earlier < later { RankMonotone(earlier + 1, later + 1); }
  }

  lemma {:induction false} WholeWeeks(earlier: int, weeks: nat, extra: nat)
    ensures CountBetween(earlier, earlier + 7 * weeks + extra) == 5 * weeks + CountBetween(earlier, earlier + extra)
    decreases weeks
  {
    if weeks > 0 {
      WholeWeeks(earlier, weeks - 1, extra);
      RankWeek(earlier + 7 * (weeks - 1) + extra + 1);
      RankWeek(earlier + 1);
    }
  }

  /** The last business day before `day`. */
  function PrevBusinessDay(day: int): (r: int)
    ensures day - 3 <= r < day && IsBusinessDay(r)
    ensures forall d :: r < d < day ==> !IsBusinessDay(d)
  {
    var w := Weekday(day);
    assert Weekday(day - 1) == if w == 0 then 6 else w - 1;
    assert Weekday(day - 2) == if w <= 1 then w + 5 else w - 2;
    assert Weekday(day - 3) == if w <= 2 then w + 4 else w - 3;
    if w == 0 then day - 3 else if w == 6 then day - 2 else day - 1
  }

  /** The walk back of the nudge window. */
  method WalkToPrevBusinessDay(day: int) returns (cursor: int)
    ensures cursor == PrevBusinessDay(day)
  {
    cursor := day - 1;
    while !IsBusinessDay(cursor)
      invariant PrevBusinessDay(day) <= cursor < day
      decreases cursor - PrevBusinessDay(day)
    {
      cursor := cursor - 1;
    }
  }

  /** Between a day and the business day before it there is one business day, or none when it is a weekend day. */
  lemma PrevIsOneBack(day: int)
    ensures CountBetween(PrevBusinessDay(day), day) == if IsBusinessDay(day) then 1 else 0
  {
    var w := Weekday(day);
    RankStep(day);
    RankStep(day - 1);
    RankStep(day - 2);
    assert Weekday(day - 1) == if w == 0 then 6 else w - 1;
    assert Weekday(day - 2) == if w <= 1 then w + 5 else w - 2;
  }
}
