/** Proleptic Gregorian dates and ISO-8601 week numbering.

    The commission engine buckets private withdrawals by the ISO week-year and
    week number of the transaction date (PHP `DateTime::format('oW')`). Dates are
    validated (year, month, day) triples; days are counted from 0001-01-01,
    which is a Monday, so the weekday of a day number is its residue mod 7.
 */
module Calendar {

  datatype Date = Date(year: int, month: int, day: int)

  /** An ISO week: the week-numbering year (`o`) and the week number (`W`). */
  datatype IsoWeek = IsoWeek(year: int, week: int)

  predicate IsLeapYear(y: int) {
    y % 4 == 0 && (y % 100 != 0 || y % 400 == 0)
  }

  function DaysInYear(y: int): (n: int)
    ensures 365 <= n <= 366
  {
    if IsLeapYear(y) then 366 else 365
  }

  function DaysInMonth(y: int, m: int): int
    requires 1 <= m <= 12
  {
    if m == 2 then (if IsLeapYear(y) then 29 else 28)
    else if m == 4 || m == 6 || m == 9 || m == 11 then 30
    else 31
  }

  predicate IsValid(d: Date) {
    && 1 <= d.year
    && 1 <= d.month <= 12
    && 1 <= d.day <= DaysInMonth(d.year, d.month)
  }

  /** A date that names a real calendar day. */
  type ValidDate = d: Date | IsValid(d) witness Date(1, 1, 1)

  /** Days from 0001-01-01 to January 1st of year `y`. */
  function DaysBeforeYear(y: int): int {
    var p := y - 1;
    365 * p + p / 4 - p / 100 + p / 400
  }

  /** Days of year `y` that precede the first day of month `m`. */
  function DaysBeforeMonth(y: int, m: int): int
    requires 1 <= m <= 12
  {
    var common :=
      if m == 1 then 0 else if m == 2 then 31 else if m == 3 then 59
      else if m == 4 then 90 else if m == 5 then 120 else if m == 6 then 151
      else if m == 7 then 181 else if m == 8 then 212 else if m == 9 then 243
      else if m == 10 then 273 else if m == 11 then 304 else 334;
    if m > 2 && IsLeapYear(y) then common + 1 else common
  }

  /** One-based position of the date within its calendar year. */
  function Ordinal(d: Date): (n: int)
    requires IsValid(d)
    ensures 1 <= n <= DaysInYear(d.year)
  {
    DaysBeforeMonth(d.year, d.month) + d.day
  }

  /** Days since 0001-01-01 (day 0). */
  function DayNumber(d: Date): int
    requires IsValid(d)
  {
    DaysBeforeYear(d.year) + Ordinal(d) - 1
  }

  /** ISO weekday: 1 is Monday, 7 is Sunday. */
  function Weekday(d: Date): int
    requires IsValid(d)
  {
    DayNumber(d) % 7 + 1
  }

  /** Day number of the Monday that starts the date's week. */
  function MondayOf(d: Date): int
    requires IsValid(d)
  {
    DayNumber(d) - DayNumber(d) % 7
  }

  /** Day number of the Thursday of the date's week; ISO 8601 assigns the
      whole week to the year that holds this day. */
  function ThursdayOf(d: Date): int
    requires IsValid(d)
  {
    MondayOf(d) + 3
  }

  /** Integer division by a constant steps by one exactly at multiples. */
  lemma DivSucc(p: int)
    ensures (p + 1) / 4 == p / 4 + (if (p + 1) % 4 == 0 then 1 else 0)
    ensures (p + 1) / 100 == p / 100 + (if (p + 1) % 100 == 0 then 1 else 0)
    ensures (p + 1) / 400 == p / 400 + (if (p + 1) % 400 == 0 then 1 else 0)
  {
  }

  /** A year's first day number plus its length is the next year's first day. */
  lemma YearLength(y: int)
    ensures DaysBeforeYear(y + 1) == DaysBeforeYear(y) + DaysInYear(y)
  {
    DivSucc(y - 1);
    DivisibilityChain(y);
    var leapSteps := (if y % 4 == 0 then 1 else 0) - (if y % 100 == 0 then 1 else 0) + (if y % 400 == 0 then 1 else 0);
    assert DaysBeforeYear(y + 1) == DaysBeforeYear(y) + 365 + leapSteps;
    assert leapSteps == (if IsLeapYear(y) then 1 else 0);
  }

  /** Multiples of 400 are multiples of 100, which are multiples of 4. */
  lemma DivisibilityChain(y: int)
    ensures y % 400 == 0 ==> y % 100 == 0
    ensures y % 100 == 0 ==> y % 4 == 0
  {
    if y % 400 == 0 {
      MultipleOf(y, 400, 100);
    }
    if y % 100 == 0 {
      MultipleOf(y, 100, 4);
    }
  }

  lemma MultipleOf(y: int, big: int, small: int)
    requires (big == 400 && small == 100) || (big == 100 && small == 4)
    requires y % big == 0
    ensures y % small == 0
  {
    var j := y / big * (big / small);
    assert y == small * j;
  }

  /** Distinct years occupy disjoint, ordered ranges of day numbers. */
  lemma {:induction false} YearsOrdered(y1: int, y2: int)
    requires y1 < y2
    ensures DaysBeforeYear(y1 + 1) <= DaysBeforeYear(y2)
    decreases y2 - y1
  {
    if y1 + 1 < y2 {
      YearsOrdered(y1, y2 - 1);
      YearLength(y2 - 1);
    }
  }

  /** Each day number belongs to exactly one year. */
  lemma YearOfDayUnique(t: int, y1: int, y2: int)
    requires DaysBeforeYear(y1) <= t < DaysBeforeYear(y1 + 1)
    requires DaysBeforeYear(y2) <= t < DaysBeforeYear(y2 + 1)
    ensures y1 == y2
  {
    if y1 < y2 {
      YearsOrdered(y1, y2);
    } else if y2 < y1 {
      YearsOrdered(y2, y1);
    }
  }

  /** The date's day number lies inside its own calendar year. */
  lemma DayNumberInYear(d: Date)
    requires IsValid(d)
    ensures DaysBeforeYear(d.year) <= DayNumber(d) < DaysBeforeYear(d.year + 1)
  {
    YearLength(d.year);
  }

  /** The Thursday of a date's week is at most three days away from it. */
  lemma ThursdayNearDay(d: Date)
    requires IsValid(d)
    ensures DayNumber(d) - 3 <= ThursdayOf(d) <= DayNumber(d) + 3
  {
    var n := DayNumber(d);
    assert 0 <= n % 7 < 7;
  }

  /** ISO week of a date (PHP `format('oW')`): the week-year is the year that
      holds the Thursday of the date's Monday-to-Sunday week, and the week number
      counts that year's Thursdays up to and including it. */
  function IsoWeekOf(d: Date): (w: IsoWeek)
    requires IsValid(d)
    ensures DaysBeforeYear(w.year) <= ThursdayOf(d) < DaysBeforeYear(w.year + 1)
    ensures DaysBeforeYear(w.year) + 7 * (w.week - 1) <= ThursdayOf(d) < DaysBeforeYear(w.year) + 7 * w.week
    ensures 1 <= w.week <= 53
    ensures d.year - 1 <= w.year <= d.year + 1
  {
    DayNumberInYear(d);
    ThursdayNearDay(d);
    IsoWeekOfDay(ThursdayOf(d), d.year)
  }

  /** The ISO week of the Thursday with day number `t`, which lies within three
      days of calendar year `y`. */
  function IsoWeekOfDay(t: int, y: int): (w: IsoWeek)
    requires DaysBeforeYear(y) - 3 <= t < DaysBeforeYear(y + 1) + 3
    ensures DaysBeforeYear(w.year) <= t < DaysBeforeYear(w.year + 1)
    ensures DaysBeforeYear(w.year) + 7 * (w.week - 1) <= t < DaysBeforeYear(w.year) + 7 * w.week
    ensures 1 <= w.week <= 53
    ensures y - 1 <= w.year <= y + 1
  {
    YearLength(y - 1);
    YearLength(y);
    YearLength(y + 1);
    var isoYear :=
      if t < DaysBeforeYear(y) then y - 1
      else if t >= DaysBeforeYear(y + 1) then y + 1
      else y;
    var offset := t - DaysBeforeYear(isoYear);
    assert 0 <= offset < 366;
    IsoWeek(isoYear, offset / 7 + 1)
  }

  /** Two days that are both Thursdays and both in the same seven-day window
      starting at `start + 7 * (week - 1)` are the same day. */
  lemma ThursdayInWindowUnique(ta: int, tb: int, start: int, week: int)
    requires ta % 7 == 3 && tb % 7 == 3
    requires start + 7 * (week - 1) <= ta < start + 7 * week
    requires start + 7 * (week - 1) <= tb < start + 7 * week
    ensures ta == tb
  {
    assert ta == 7 * (ta / 7) + 3 && tb == 7 * (tb / 7) + 3;
    assert -7 < 7 * (ta / 7) - 7 * (tb / 7) < 7;
  }

  lemma ThursdayResidue(d: Date)
    requires IsValid(d)
    ensures ThursdayOf(d) % 7 == 3
  {
    MondayResidue(DayNumber(d));
  }

  lemma MondayResidue(n: int)
    ensures (n - n % 7 + 3) % 7 == 3
  {
    assert n - n % 7 == 7 * (n / 7);
  }

  /** Two dates share an ISO week exactly when they share a Monday-to-Sunday
      week, whatever calendar years they fall in. */
  lemma SameIsoWeekIffSameWeek(a: Date, b: Date)
    requires IsValid(a) && IsValid(b)
    ensures IsoWeekOf(a) == IsoWeekOf(b) <==> MondayOf(a) == MondayOf(b)
  {
    var wa, wb := IsoWeekOf(a), IsoWeekOf(b);
    if MondayOf(a) == MondayOf(b) {
      YearOfDayUnique(ThursdayOf(a), wa.year, wb.year);
    }
    if wa == wb {
      ThursdayResidue(a);
      ThursdayResidue(b);
      ThursdayInWindowUnique(ThursdayOf(a), ThursdayOf(b), DaysBeforeYear(wa.year), wa.week);
    }
  }

  /** Within its own calendar year the ISO week number is the usual ordinal
      formula `(ordinal - weekday + 10) / 7`. */
  lemma IsoWeekOrdinalFormula(d: Date)
    requires IsValid(d)
    requires IsoWeekOf(d).year == d.year
    ensures IsoWeekOf(d).week == (Ordinal(d) - Weekday(d) + 10) / 7
  {
    var t := ThursdayOf(d);
    assert t - DaysBeforeYear(d.year) == Ordinal(d) - Weekday(d) + 3;
  }

  /** The last day of 2014 (a Wednesday) and the first day of 2015 both fall
      in week 1 of ISO year 2015. */
  lemma NewYear2015SharesWeek()
    ensures IsoWeekOf(Date(2014, 12, 31)) == IsoWeek(2015, 1)
    ensures IsoWeekOf(Date(2015, 1, 1)) == IsoWeek(2015, 1)
  {
    assert DaysBeforeYear(2014) == 735233;
    assert DaysBeforeYear(2015) == 735598;
    assert DayNumber(Date(2014, 12, 31)) == 735597;
    assert DayNumber(Date(2015, 1, 1)) == 735598;
    assert ThursdayOf(Date(2014, 12, 31)) == 735598;
    assert ThursdayOf(Date(2015, 1, 1)) == 735598;
  }
}
