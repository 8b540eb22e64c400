/**
 * The calendar helpers of src/utils/affectationUtils.js: weekdays, the calendar year, the ISO 8601
 * week number (section 4.1.4 of ISO 8601:2004, week dates), window overlap and the enumeration of
 * every date that falls on one weekday inside a window.
 *
 * A date is a whole day: the number of days since 1970-01-01 (a Thursday), read at local midnight.
 */
module Calendar {

  /** Days since 1970-01-01. */
  type Day = nat

  /** The days of the week, in the order of JavaScript's `Date.getDay` (Sunday is 0). */
  datatype Weekday = Dimanche | Lundi | Mardi | Mercredi | Jeudi | Vendredi | Samedi

  /** `getDay()` of a weekday; also its position in `['dimanche', 'lundi', ..., 'samedi']`. */
  function DayIndex(w: Weekday): (i: nat)
    ensures i < 7
  {
    match w
    case Dimanche => 0
    case Lundi => 1
    case Mardi => 2
    case Mercredi => 3
    case Jeudi => 4
    case Vendredi => 5
    case Samedi => 6
  }

  function WeekdayAt(i: nat): (w: Weekday)
    requires i < 7
    ensures DayIndex(w) == i
  {
    if i == 0 then Dimanche
    else if i == 1 then Lundi
    else if i == 2 then Mardi
    else if i == 3 then Mercredi
    else if i == 4 then Jeudi
    else if i == 5 then Vendredi
    else Samedi
  }

  /** The lower-case French name under which the source stores a weekday. */
  function Name(w: Weekday): string {
    match w
    case Dimanche => "dimanche"
    case Lundi => "lundi"
    case Mardi => "mardi"
    case Mercredi => "mercredi"
    case Jeudi => "jeudi"
    case Vendredi => "vendredi"
    case Samedi => "samedi"
  }

  /** `date.getDay()`: day 0 is a Thursday. */
  function WeekdayOf(d: Day): (w: Weekday)
    ensures DayIndex(w) == (d + 4) % 7
  {
    WeekdayAt((d + 4) % 7)
  }

  lemma DayIndexInjective(v: Weekday, w: Weekday)
    requires DayIndex(v) == DayIndex(w)
    ensures v == w
  {
  }

  /** Two numbers leave the same remainder modulo 7 exactly when their difference is a multiple of 7. */
  lemma SameRemainderIffMultiple(x: nat, y: nat)
    requires x <= y
    ensures x % 7 == y % 7 <==> (y - x) % 7 == 0
  {
    var qx, rx := x / 7, x % 7;
    var qy, ry := y / 7, y % 7;
    var q, r := (y - x) / 7, (y - x) % 7;
    assert x == 7 * qx + rx && y == 7 * qy + ry && y - x == 7 * q + r;
    if r == 0 {
      assert 7 * qy + ry == 7 * (qx + q) + rx;
    }
    if rx == ry {
      assert 7 * q + r == 7 * (qy - qx);
    }
  }

  /** Two dates fall on the same weekday exactly when they are a whole number of weeks apart. */
  lemma SameWeekdayIffWeeksApart(a: Day, b: Day)
    requires a <= b
    ensures WeekdayOf(a) == WeekdayOf(b) <==> (b - a) % 7 == 0
  {
    SameRemainderIffMultiple(a + 4, b + 4);
    if (a + 4) % 7 == (b + 4) % 7 {
      DayIndexInjective(WeekdayOf(a), WeekdayOf(b));
    }
  }

  // ---------------------------------------------------------------------------------------------
  // Calendar year (Gregorian), `getFullYear()` and the day of the year

  predicate IsLeapYear(y: int) {
    y % 4 == 0 && (y % 100 != 0 || y % 400 == 0)
  }

  function YearLength(y: int): nat {
    if IsLeapYear(y) then 366 else 365
  }

  /** Walks forward from 1 January of year `y`, `d` days later: the year reached and the day in it. */
  function YearAndDayFrom(d: nat, y: int): (r: (int, nat))
    ensures y <= r.0
    ensures r.1 < YearLength(r.0)
    decreases d
  {
    if d < YearLength(y) then (y, d) else YearAndDayFrom(d - YearLength(y), y + 1)
  }

  /** `date.getFullYear()`. */
  function YearOf(d: Day): (y: int)
    ensures 1970 <= y
  {
    YearAndDayFrom(d, 1970).0
  }

  /** Days since 1 January of the date's own year (0 on 1 January). */
  function DayOfYear(d: Day): (n: nat)
    ensures n < YearLength(YearOf(d)) <= 366
  {
    YearAndDayFrom(d, 1970).1
  }

  /** 1 January of year `y`, as a day number. */
  function YearStart(y: int): Day
    requires 1970 <= y
    decreases y - 1970
  {
    if y == 1970 then 0 else YearStart(y - 1) + YearLength(y - 1)
  }

  lemma {:induction false} YearAndDayFromStart(d: nat, y: int)
    requires 1970 <= y
    ensures YearStart(YearAndDayFrom(d, y).0) + YearAndDayFrom(d, y).1 == YearStart(y) + d
    decreases d
  {
    if d >= YearLength(y) {
      YearAndDayFromStart(d - YearLength(y), y + 1);
    }
  }

  /** A date is the first day of its year plus its day of the year. */
  lemma YearStartPlusDayOfYear(d: Day)
    ensures YearStart(YearOf(d)) + DayOfYear(d) == d
  {
    YearAndDayFromStart(d, 1970);
  }

  // ---------------------------------------------------------------------------------------------
  // ISO 8601 week number, as `getWeekNumber` computes it

  /** `d.getDay() || 7`: Monday is 1 and Sunday is 7. */
  function IsoDayNumber(d: Day): (n: nat)
    ensures 1 <= n <= 7
  {
    if WeekdayOf(d) == Dimanche then 7 else DayIndex(WeekdayOf(d))
  }

  /** `d.setDate(d.getDate() + 4 - (d.getDay() || 7))`: the Thursday of the date's Monday-to-Sunday week. */
  function ShiftedThursday(d: Day): (t: Day)
    ensures t + IsoDayNumber(d) == d + 4
    ensures WeekdayOf(t) == Jeudi
  {
    var t := d + 4 - IsoDayNumber(d);
    assert DayIndex(WeekdayOf(t)) == 4;
    DayIndexInjective(WeekdayOf(t), Jeudi);
    t
  }

  /**
   * `getWeekNumber`: ceil((days from 1 January of the Thursday's year to the Thursday, plus one) / 7).
   * The Thursday lies at most 365 days after that 1 January, so the week is between 1 and 53.
   */
  function WeekNumber(d: Day): (w: nat)
    ensures 1 <= w <= 53
  {
    DayOfYear(ShiftedThursday(d)) / 7 + 1
  }

  /** The ISO week number does not change from a Monday through the following Sunday. */
  lemma {:induction false} WeekNumberConstantMondayToSunday(monday: Day, k: nat)
    requires WeekdayOf(monday) == Lundi
    requires k < 7
    ensures IsoDayNumber(monday + k) == 1 + k
    ensures WeekNumber(monday + k) == WeekNumber(monday)
  {
    assert (monday + 4) % 7 == 1;
    assert (monday + k + 4) % 7 == (1 + k) % 7;
    if k == 6 {
      DayIndexInjective(WeekdayOf(monday + k), Dimanche);
    } else {
      assert WeekdayOf(monday + k) != Dimanche;
    }
    assert ShiftedThursday(monday + k) == ShiftedThursday(monday);
  }

  /**
   * The key under which the allocator and the hours helpers file a date: the ISO week paired with
   * the CALENDAR year of the date itself (`getWeekNumber(current)` with `current.getFullYear()`).
   */
  function CallerWeekKey(d: Day): (int, nat) {
    (YearOf(d), WeekNumber(d))
  }

  /**
   * The key under which the report files a date: the ISO week paired with the year of the shifted
   * Thursday, which is the ISO week-numbering year.
   */
  function ReportWeekKey(d: Day): (int, nat) {
    (YearOf(ShiftedThursday(d)), WeekNumber(d))
  }

  /**
   * Thursday 1970-12-31 (day 364) and Friday 1971-01-01 (day 365) lie in the same ISO week (week 53
   * of 1970): the report files them under one key, the allocator under two different keys.
   */
  lemma CallerKeySplitsAnIsoWeek()
    ensures WeekNumber(364) == WeekNumber(365) == 53
    ensures ReportWeekKey(364) == ReportWeekKey(365) == (1970, 53)
    ensures CallerWeekKey(364) == (1970, 53)
    ensures CallerWeekKey(365) == (1971, 53)
  {
    assert YearLength(1970) == 365;
    assert YearAndDayFrom(364, 1970) == (1970, 364);
    assert YearAndDayFrom(365, 1970) == YearAndDayFrom(0, 1971) == (1971, 0);
    assert WeekdayOf(364) == Jeudi;
    assert WeekdayOf(365) == Vendredi;
    assert ShiftedThursday(365) == 364;
  }

  // ---------------------------------------------------------------------------------------------
  // Windows and the dates of one weekday inside a window

  /** `datesOverlap`: two windows overlap when each starts strictly before the other ends. */
  predicate DatesOverlap(start1: Day, end1: Day, start2: Day, end2: Day) {
    start1 < end2 && start2 < end1
  }

  /** Overlap is symmetric, and windows that merely touch do not overlap. */
  lemma DatesOverlapSymmetricAndStrict(start1: Day, end1: Day, start2: Day, end2: Day)
    ensures DatesOverlap(start1, end1, start2, end2) == DatesOverlap(start2, end2, start1, end1)
    ensures end1 == start2 ==> !DatesOverlap(start1, end1, start2, end2)
  {
  }

  /**
   * The advance loop of the allocators and of `getAllMondaysBetween`: step one day at a time from
   * `start` until the date falls on `w`.
   */
  function FirstOnOrAfter(start: Day, w: Weekday): (d: Day)
    ensures d == start + DaysUntil(start, w)
    ensures start <= d < start + 7
    ensures WeekdayOf(d) == w
    decreases DaysUntil(start, w)
  {
    if WeekdayOf(start) == w then start
    else
      NextDayCloser(start, w);
      FirstOnOrAfter(start + 1, w)
  }

  /** How many days separate `start` from the next date falling on `w`. */
  function DaysUntil(start: Day, w: Weekday): nat {
    (DayIndex(w) + 7 - (start + 4) % 7) % 7
  }

  /** A day that does not fall on `w` is one day further from it than the next day is. */
  lemma NextDayCloser(start: Day, w: Weekday)
    requires WeekdayOf(start) != w
    ensures 0 < DaysUntil(start, w) && DaysUntil(start + 1, w) == DaysUntil(start, w) - 1
  {
    var s, i := (start + 4) % 7, DayIndex(w);
    if s == i {
      DayIndexInjective(WeekdayOf(start), w);
    }
    ShiftedRemainder(start + 4, 1);
    if s == 6 {
      assert (start + 5) % 7 == 0;
      assert DaysUntil(start, w) == i + 1;
    } else if s < i {
      assert (start + 5) % 7 == s + 1;
      assert DaysUntil(start, w) == i - s;
    } else {
      assert (start + 5) % 7 == s + 1;
      assert DaysUntil(start, w) == i + 7 - s;
    }
  }

  /** Adding `t` to `x` adds `t` to its remainder modulo 7, wrapping around. */
  lemma ShiftedRemainder(x: nat, t: nat)
    ensures (x + t) % 7 == (x % 7 + t) % 7
  {
    var q := x / 7;
    assert x == 7 * q + x % 7;
    assert x + t == 7 * q + (x % 7 + t);
  }

  /** No date between `start` and `FirstOnOrAfter(start, w)` falls on `w`. */
  lemma {:induction false} FirstOnOrAfterIsFirst(start: Day, w: Weekday)
    ensures forall e :: start <= e < FirstOnOrAfter(start, w) ==> WeekdayOf(e) != w
    decreases DaysUntil(start, w)
  {
    if WeekdayOf(start) != w {
      NextDayCloser(start, w);
      FirstOnOrAfterIsFirst(start + 1, w);
    }
  }

  /** Advances `current` one day at a time until it falls on `w`, as each allocator loop does. */
  method AdvanceToWeekday(start: Day, w: Weekday) returns (current: Day)
    ensures current == FirstOnOrAfter(start, w)
  {
    current := start;
    while WeekdayOf(current) != w
      invariant FirstOnOrAfter(current, w) == FirstOnOrAfter(start, w)
      decreases DaysUntil(current, w)
    {
      NextDayCloser(current, w);
      current := current + 1;
    }
  }

  /** `d`, `d + 7`, `d + 14`, ... while not after `end`. */
  function DatesFrom(d: Day, end: Day): seq<Day>
    decreases end + 1 - d
  {
    if d > end then [] else [d] + DatesFrom(d + 7, end)
  }

  /** Every date in [start, end] that falls on `w`, in increasing order. */
  function WeekdayDates(start: Day, end: Day, w: Weekday): seq<Day> {
    DatesFrom(FirstOnOrAfter(start, w), end)
  }

  lemma {:induction false} DatesFromShape(d: Day, end: Day)
    ensures forall i :: 0 <= i < |DatesFrom(d, end)| ==> DatesFrom(d, end)[i] == d + 7 * i <= end
    ensures forall e :: d <= e <= end && (e - d) % 7 == 0 ==> e in DatesFrom(d, end)
    decreases end + 1 - d
  {
    if d <= end {
      DatesFromShape(d + 7, end);
      var r := DatesFrom(d, end);
      forall i | 0 <= i < |r|
        ensures r[i] == d + 7 * i <= end
      {
        if i > 0 {
          assert r[i] == DatesFrom(d + 7, end)[i - 1];
        }
      }
      forall e | d <= e <= end && (e - d) % 7 == 0
        ensures e in r
      {
        if e != d {
          assert (e - (d + 7)) % 7 == 0;
          assert e in DatesFrom(d + 7, end);
        }
      }
    }
  }

  /**
   * What `getAllMondaysBetween(start, end, w)` returns: only dates on weekday `w`, each inside
   * [start, end], the first within six days of `start`, each seven days after the one before, and
   * every date of the window that falls on `w` (so nothing when none does).
   */
  lemma WeekdayDatesExactly(start: Day, end: Day, w: Weekday)
    ensures forall i :: 0 <= i < |WeekdayDates(start, end, w)| ==>
      WeekdayOf(WeekdayDates(start, end, w)[i]) == w && start <= WeekdayDates(start, end, w)[i] <= end
    ensures |WeekdayDates(start, end, w)| > 0 ==> WeekdayDates(start, end, w)[0] <= start + 6
    ensures forall i :: 0 < i < |WeekdayDates(start, end, w)| ==>
      WeekdayDates(start, end, w)[i] == WeekdayDates(start, end, w)[i - 1] + 7
    ensures forall e :: start <= e <= end && WeekdayOf(e) == w ==> e in WeekdayDates(start, end, w)
  {
    var first := FirstOnOrAfter(start, w);
    var r := WeekdayDates(start, end, w);
    DatesFromShape(first, end);
    FirstOnOrAfterIsFirst(start, w);
    forall i | 0 <= i < |r|
      ensures WeekdayOf(r[i]) == w
    {
      assert (r[i] - first) % 7 == 0;
      SameWeekdayIffWeeksApart(first, r[i]);
    }
    forall e | start <= e <= end && WeekdayOf(e) == w
      ensures e in r
    {
      assert first <= e;
      SameWeekdayIffWeeksApart(first, e);
    }
  }

  /** `getAllMondaysBetween`: the two loops of the source, proved to return `WeekdayDates`. */
  method AllWeekdaysBetween(start: Day, end: Day, w: Weekday) returns (result: seq<Day>)
    ensures result == WeekdayDates(start, end, w)
  {
    result := [];
    var current: Day := start;
    while WeekdayOf(current) != w
      invariant FirstOnOrAfter(current, w) == FirstOnOrAfter(start, w)
      decreases DaysUntil(current, w)
    {
      NextDayCloser(current, w);
      current := current + 1;
    }
    while current <= end
      invariant result + DatesFrom(current, end) == WeekdayDates(start, end, w)
      decreases end + 1 - current
    {
      result := result + [current];
      current := current + 7;
    }
  }

  // ---------------------------------------------------------------------------------------------
  // Months, `new Date(year, month, day)` and the ISO date string

  /** Days of year `y` before the first day of month `m` (0-based; month 12 is the next 1 January). */
  function DaysBeforeMonth(y: int, m: nat): (n: nat)
    requires m <= 12
    ensures m == 12 ==> n == YearLength(y)
  {
    var table := [0, 31, 59, 90, 120, 151, 181, 212, 243, 273, 304, 334, 365];
    table[m] + (if IsLeapYear(y) && m >= 2 then 1 else 0)
  }

  function MonthLength(y: int, m: nat): (n: nat)
    requires m < 12
    ensures 28 <= n <= 31
  {
    DaysBeforeMonth(y, m + 1) - DaysBeforeMonth(y, m)
  }

  function MonthFrom(y: int, doy: nat, m: nat): (r: nat)
    requires m < 12 && DaysBeforeMonth(y, m) <= doy < YearLength(y)
    ensures m <= r < 12
    ensures DaysBeforeMonth(y, r) <= doy < DaysBeforeMonth(y, r + 1)
    decreases 12 - m
  {
    if doy < DaysBeforeMonth(y, m + 1) then m else MonthFrom(y, doy, m + 1)
  }

  /** `date.getMonth()` (0-based). */
  function MonthOf(d: Day): (m: nat)
    ensures m < 12
    ensures DaysBeforeMonth(YearOf(d), m) <= DayOfYear(d) < DaysBeforeMonth(YearOf(d), m + 1)
  {
    MonthFrom(YearOf(d), DayOfYear(d), 0)
  }

  /** `date.getDate()` (1-based). */
  function DayOfMonth(d: Day): (n: nat)
    ensures 1 <= n <= MonthLength(YearOf(d), MonthOf(d))
  {
    DayOfYear(d) - DaysBeforeMonth(YearOf(d), MonthOf(d)) + 1
  }

  /**
   * `new Date(y, m, day)` for a month 0..12 (12 rolls over to January of the next year) and a day
   * of the month from 0 (0 is the last day of the month before).
   */
  function DateFromParts(y: int, m: nat, day: nat): Day
    requires 1970 <= y && m <= 12
    requires YearStart(y) + DaysBeforeMonth(y, m) + day >= 1
  {
    YearStart(y) + DaysBeforeMonth(y, m) + day - 1
  }

  /** A date is rebuilt from its own year, month and day of the month. */
  lemma DateFromOwnParts(d: Day)
    ensures DateFromParts(YearOf(d), MonthOf(d), DayOfMonth(d)) == d
  {
    YearStartPlusDayOfYear(d);
  }

  /** Decimal digits of a natural number. */
  function Digits(n: nat): (s: string)
    ensures |s| >= 1
    decreases n
  {
    var c := ['0', '1', '2', '3', '4', '5', '6', '7', '8', '9'][n % 10];
    if n < 10 then [c] else Digits(n / 10) + [c]
  }

  function PadStart(s: string, len: nat, fill: char): (r: string)
    ensures |r| == if |s| < len then len else |s|
    decreases len - |s|
  {
    if |s| < len then PadStart([fill] + s, len, fill) else s
  }

  /** `date.toISOString().slice(0, 10)`: `yyyy-mm-dd` (the model reads the local date, see README). */
  function IsoDateString(d: Day): string {
    PadStart(Digits(YearOf(d) as nat), 4, '0') + "-" +
    PadStart(Digits(MonthOf(d) + 1), 2, '0') + "-" +
    PadStart(Digits(DayOfMonth(d)), 2, '0')
  }
}
