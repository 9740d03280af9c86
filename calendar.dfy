/**
 * Proleptic Gregorian dates and naive local date-times as Python's `datetime`
 * module has them (years 1 to 9999), with the contract-expiry rule of the
 * bot: the expiry day of a month is its last Thursday (main.py).
 */
module Calendar {
  import opened PyValues

  const MinYear: int := 1
  const MaxYear: int := 9999
  /** `date.weekday()` numbers Monday 0 through Sunday 6. */
  const Thursday: int := 3
  const SecondsPerDay: int := 86400

  datatype Date = Date(year: int, month: int, day: int)

  /** A naive local `datetime` (no time zone). */
  datatype DateTime = DateTime(date: Date, hour: int, minute: int, second: int, micro: int)

  predicate IsLeap(y: int) {
    y % 4 == 0 && (y % 100 != 0 || y % 400 == 0)
  }

  function DaysInYear(y: int): int {
    if IsLeap(y) then 366 else 365
  }

  function DaysInMonth(y: int, m: int): int {
    if m == 2 then (if IsLeap(y) then 29 else 28)
    else if m == 4 || m == 6 || m == 9 || m == 11 then 30
    else 31
  }

  predicate ValidDate(d: Date) {
    MinYear <= d.year <= MaxYear && 1 <= d.month <= 12 && 1 <= d.day <= DaysInMonth(d.year, d.month)
  }

  predicate ValidDateTime(t: DateTime) {
    ValidDate(t.date) && 0 <= t.hour < 24 && 0 <= t.minute < 60 && 0 <= t.second < 60
    && 0 <= t.micro < 1000000
  }

  /** `date(y, m, d)`: None where Python raises ValueError. */
  function MakeDate(y: int, m: int, d: int): (r: Option<Date>)
    ensures r.Some? ==> ValidDate(r.value)
  {
    if ValidDate(Date(y, m, d)) then Some(Date(y, m, d)) else None
  }

  function DaysBeforeYear(y: int): nat
    requires y >= MinYear
    decreases y
  {
    if y == MinYear then 0 else DaysBeforeYear(y - 1) + DaysInYear(y - 1)
  }

  function DaysBeforeMonth(y: int, m: int): nat
    requires 1 <= m <= 12
  {
    [0, 31, 59, 90, 120, 151, 181, 212, 243, 273, 304, 334][m - 1]
    + (if m > 2 && IsLeap(y) then 1 else 0)
  }

  /** `date.toordinal()`: 0001-01-01 is day 1. */
  function Ordinal(d: Date): int
    requires ValidDate(d)
  {
    DaysBeforeYear(d.year) + DaysBeforeMonth(d.year, d.month) + d.day
  }

  /** `date.weekday()`: 0001-01-01 was a Monday. */
  function Weekday(d: Date): int
    requires ValidDate(d)
  {
    (Ordinal(d) + 6) % 7
  }

  /** `d - timedelta(days=1)`. */
  function PrevDay(d: Date): (r: Date)
    requires ValidDate(d) && d != Date(MinYear, 1, 1)
    ensures ValidDate(r) && Ordinal(r) == Ordinal(d) - 1
  {
    if d.day > 1 then Date(d.year, d.month, d.day - 1)
    else if d.month > 1 then
      MonthStep(d.year, d.month - 1);
      Date(d.year, d.month - 1, DaysInMonth(d.year, d.month - 1))
    else
      YearStep(d.year - 1);
      Date(d.year - 1, 12, 31)
  }

  /** `d + timedelta(days=1)`. */
  function NextDay(d: Date): (r: Date)
    requires ValidDate(d) && d != Date(MaxYear, 12, 31)
    ensures ValidDate(r) && Ordinal(r) == Ordinal(d) + 1
  {
    if d.day < DaysInMonth(d.year, d.month) then Date(d.year, d.month, d.day + 1)
    else if d.month < 12 then
      MonthStep(d.year, d.month);
      Date(d.year, d.month + 1, 1)
    else
      YearStep(d.year);
      Date(d.year + 1, 1, 1)
  }

  /** The days before month m + 1 are those before month m and the days of month m. */
  lemma MonthStep(y: int, m: int)
    requires 1 <= m < 12
    ensures DaysBeforeMonth(y, m + 1) == DaysBeforeMonth(y, m) + DaysInMonth(y, m)
  {
  }

  /** The days before year y + 1 are those before year y and the days through 31 December of year y. */
  lemma YearStep(y: int)
    requires y >= MinYear
    ensures DaysBeforeYear(y + 1) == DaysBeforeYear(y) + DaysBeforeMonth(y, 12) + 31
  {
  }

  /** `d - timedelta(days=n)`, for an `n` that stays within year 1. */
  function MinusDays(d: Date, n: nat): (r: Date)
    requires ValidDate(d) && n < Ordinal(d)
    ensures ValidDate(r) && Ordinal(r) == Ordinal(d) - n
    decreases n
  {
    if n == 0 then d else MinusDays(PrevDay(d), n - 1)
  }

  /**
   * `last_thursday(year, month)` of main.py: the day before the first of the
   * next month, moved back `(weekday - 3) % 7` days.  For December 9999 the
   * first of the next month does not exist and Python raises (None).
   */
  function LastThursday(year: int, month: int): (r: Option<Date>)
    requires MinYear <= year <= MaxYear && 1 <= month <= 12
    ensures r.None? <==> year == MaxYear && month == 12
  {
    var next := if month == 12 then MakeDate(year + 1, 1, 1) else MakeDate(year, month + 1, 1);
    match next
    case None => None
    case Some(first) =>
      LastDayOfMonth(year, month);
      Some(BackToThursday(PrevDay(first)))
  }

  /** `last_day - timedelta(days=(last_day.weekday() - 3) % 7)`: the Thursday on or before `d`. */
  function BackToThursday(d: Date): (r: Date)
    requires ValidDate(d) && Ordinal(d) > 6
    ensures ValidDate(r)
  {
    MinusDays(d, (Weekday(d) - Thursday) % 7)
  }

  /** `is_expiry_day(dt)` of main.py; None where `last_thursday` raises. */
  function IsExpiryDay(now: DateTime): (r: Option<bool>)
    requires ValidDateTime(now)
    ensures r.None? <==> now.date.year == MaxYear && now.date.month == 12
    ensures r == Some(true) ==>
      Weekday(now.date) == Thursday && now.date.day > DaysInMonth(now.date.year, now.date.month) - 7
  {
    match LastThursday(now.date.year, now.date.month)
    case None => None
    case Some(e) =>
      LastThursdayIsLastThursday(now.date.year, now.date.month);
      Some(now.date == e)
  }

  /** Seconds since 0001-01-01 00:00, so that `(a - b).total_seconds()` is `Seconds(a) - Seconds(b)`. */
  function Seconds(t: DateTime): real
    requires ValidDateTime(t)
  {
    (Ordinal(t.date) * SecondsPerDay + t.hour * 3600 + t.minute * 60 + t.second) as real
    + t.micro as real / 1000000.0
  }

  /** Seconds elapsed since the local midnight that began `t`'s day. */
  function TimeOfDay(t: DateTime): real
    requires ValidDateTime(t)
  {
    (t.hour * 3600 + t.minute * 60 + t.second) as real + t.micro as real / 1000000.0
  }

  // ---------------------------------------------------------------------
  // Properties
  // ---------------------------------------------------------------------

  /** The day before the first of the next month is the last day of this month. */
  lemma LastDayOfMonth(year: int, month: int)
    requires MinYear <= year <= MaxYear && 1 <= month <= 12 && !(year == MaxYear && month == 12)
    ensures var first := if month == 12 then Date(year + 1, 1, 1) else Date(year, month + 1, 1);
      ValidDate(first) && first != Date(MinYear, 1, 1)
      && PrevDay(first) == Date(year, month, DaysInMonth(year, month))
      && Ordinal(PrevDay(first)) >= 28
  {
  }

  /** Moving back fewer days than the day of the month stays in the month. */
  lemma {:induction false} MinusDaysInMonth(d: Date, n: nat)
    requires ValidDate(d) && n < d.day
    ensures n < Ordinal(d) && MinusDays(d, n) == Date(d.year, d.month, d.day - n)
    decreases n
  {
    if n > 0 {
      MinusDaysInMonth(PrevDay(d), n - 1);
    }
  }

  /** Within one month the weekday advances by one per day, modulo 7. */
  lemma WeekdayInMonth(y: int, m: int, j: int, k: int)
    requires ValidDate(Date(y, m, j)) && ValidDate(Date(y, m, k))
    ensures Weekday(Date(y, m, k)) == (Weekday(Date(y, m, j)) + (k - j)) % 7
  {
    var base := DaysBeforeYear(y) + DaysBeforeMonth(y, m) + 6;
    assert Ordinal(Date(y, m, k)) + 6 == (base + j) + (k - j);
    ModAdd(base + j, k - j);
  }

  lemma ModAdd(a: int, b: int)
    ensures (a + b) % 7 == (a % 7 + b) % 7
  {
    var q := a / 7;
    assert a == 7 * q + a % 7;
    assert a + b == 7 * q + (a % 7 + b);
  }

  /** `last_thursday(y, m)` moves the month's last day back to a Thursday. */
  lemma LastThursdayFromLastDay(y: int, m: int)
    requires MinYear <= y <= MaxYear && 1 <= m <= 12 && !(y == MaxYear && m == 12)
    ensures ValidDate(Date(y, m, DaysInMonth(y, m))) && Ordinal(Date(y, m, DaysInMonth(y, m))) > 6
    ensures LastThursday(y, m) == Some(BackToThursday(Date(y, m, DaysInMonth(y, m))))
  {
    LastDayOfMonth(y, m);
    var first := if m == 12 then Date(y + 1, 1, 1) else Date(y, m + 1, 1);
    assert (if m == 12 then MakeDate(y + 1, 1, 1) else MakeDate(y, m + 1, 1)) == Some(first);
  }

  /** From a day late enough in its month, the Thursday on or before it is in the same month. */
  lemma BackToThursdayInMonth(d: Date)
    requires ValidDate(d) && d.day >= 7
    ensures Ordinal(d) > 6
    ensures BackToThursday(d) == Date(d.year, d.month, d.day - (Weekday(d) - Thursday) % 7)
  {
    MinusDaysInMonth(d, (Weekday(d) - Thursday) % 7);
  }

  lemma ThursdayOffset(w: int)
    requires 0 <= w < 7
    ensures 0 <= (w - Thursday) % 7 < 7 && (w - (w - Thursday) % 7) % 7 == Thursday
  {
  }

  lemma NotThursdayAfter(t: int)
    requires 1 <= t <= 6
    ensures (Thursday + t) % 7 != Thursday
  {
  }

  /**
   * `last_thursday(y, m)` lies in month m of year y, is a Thursday, falls in
   * the month's last seven days, and no later day of the month is a Thursday.
   */
  lemma LastThursdayIsLastThursday(y: int, m: int)
    requires MinYear <= y <= MaxYear && 1 <= m <= 12 && !(y == MaxYear && m == 12)
    ensures var d := LastThursday(y, m).value;
      && ValidDate(d) && d.year == y && d.month == m && Weekday(d) == Thursday
      && DaysInMonth(y, m) - 7 < d.day
      && forall k :: d.day < k <= DaysInMonth(y, m) ==> Weekday(Date(y, m, k)) != Thursday
  {
    var n := DaysInMonth(y, m);
    LastThursdayFromLastDay(y, m);
    BackToThursdayInMonth(Date(y, m, n));
    var w := Weekday(Date(y, m, n));
    ThursdayOffset(w);
    var offset := (w - Thursday) % 7;
    var day := n - offset;
    assert LastThursday(y, m).value == Date(y, m, day);
    WeekdayInMonth(y, m, n, day);
    assert Weekday(Date(y, m, day)) == Thursday;
    NoThursdayWithinWeek(y, m, day);
  }

  /** The six days after a Thursday are not Thursdays. */
  lemma NoThursdayWithinWeek(y: int, m: int, day: int)
    requires ValidDate(Date(y, m, day)) && Weekday(Date(y, m, day)) == Thursday
    ensures forall k :: day < k <= DaysInMonth(y, m) && k < day + 7 ==> Weekday(Date(y, m, k)) != Thursday
  {
    forall k | day < k <= DaysInMonth(y, m) && k < day + 7
      ensures Weekday(Date(y, m, k)) != Thursday
    {
      WeekdayInMonth(y, m, day, k);
      NotThursdayAfter(k - day);
    }
  }

  /**
   * A day is an expiry day exactly when it is a Thursday among the last seven
   * days of its month (December 9999 aside, where `is_expiry_day` raises).
   */
  lemma ExpiryDayIsLateThursday(now: DateTime)
    requires ValidDateTime(now) && !(now.date.year == MaxYear && now.date.month == 12)
    ensures IsExpiryDay(now) == Some(true) <==>
      Weekday(now.date) == Thursday && now.date.day > DaysInMonth(now.date.year, now.date.month) - 7
  {
    if Weekday(now.date) == Thursday && now.date.day > DaysInMonth(now.date.year, now.date.month) - 7 {
      LateThursdayIsLast(now.date);
    }
  }

  /** A Thursday among the last seven days of its month is that month's last Thursday. */
  lemma LateThursdayIsLast(d: Date)
    requires ValidDate(d) && !(d.year == MaxYear && d.month == 12)
    requires Weekday(d) == Thursday && d.day > DaysInMonth(d.year, d.month) - 7
    ensures LastThursday(d.year, d.month) == Some(d)
  {
    LastThursdayIsLastThursday(d.year, d.month);
    var e := LastThursday(d.year, d.month).value;
    if d.day < e.day {
      WeekdayInMonth(d.year, d.month, d.day, e.day);
    } else if e.day < d.day {
      WeekdayInMonth(d.year, d.month, e.day, d.day);
    }
  }

  /** Advancing to the next day adds one day's worth of seconds. */
  lemma NextMidnightSeconds(now: DateTime)
    requires ValidDateTime(now) && now.date != Date(MaxYear, 12, 31)
    ensures var next := DateTime(NextDay(now.date), 0, 0, 0, 0);
      ValidDateTime(next) && Seconds(next) - Seconds(now) == SecondsPerDay as real - TimeOfDay(now)
  {
  }
}
