/** Time as JavaScript's `Date` holds it: an integer number of milliseconds
    since 1970-01-01T00:00:00 UTC, with a proleptic Gregorian civil view
    (year, month, day). Only what the deadline engine uses is here:
    `getFullYear`, `setFullYear` and comparison of time values. */
module Calendar {

  const MsPerDay: int := 86_400_000

  /** A JavaScript time value. */
  type Instant = int

  /** Day number of an instant (day 0 is 1970-01-01); Dafny's `/` floors here. */
  function DayOf(t: Instant): int
  {
    t / MsPerDay
  }

  /** Milliseconds since the start of the instant's day. */
  function TimeInDay(t: Instant): (r: int)
    ensures 0 <= r < MsPerDay
    ensures t == DayOf(t) * MsPerDay + r
  {
    t % MsPerDay
  }

  /** The instant at `ms` milliseconds into day `d`. */
  function InstantAt(d: int, ms: int): Instant
  {
    d * MsPerDay + ms
  }

  /** An instant rebuilt from its day number and time of day: its day, time
      of day, year and civil date are those it was built from. */
  lemma InstantOfDay(d: int, ms: int)
    requires 0 <= ms < MsPerDay
    ensures DayOf(InstantAt(d, ms)) == d
    ensures TimeInDay(InstantAt(d, ms)) == ms
    ensures YearOf(InstantAt(d, ms)) == YearOfDay(d)
    ensures CivilOf(InstantAt(d, ms)) == ToCivil(d)
  {
  }

  predicate IsLeap(y: int)
  {
    y % 4 == 0 && (y % 100 != 0 || y % 400 == 0)
  }

  function DaysInYear(y: int): int
  {
    if IsLeap(y) then 366 else 365
  }

  /** The number of leap years before year `y`, counted from a fixed origin. */
  function LeapsBefore(y: int): int
  {
    (y - 1) / 4 - (y - 1) / 100 + (y - 1) / 400
  }

  /** Day number of January 1 of year `y`. */
  function DaysBeforeYear(y: int): int
  {
    365 * (y - 1970) + LeapsBefore(y) - LeapsBefore(1970)
  }

  lemma DivStep4(y: int)
    ensures y / 4 - (y - 1) / 4 == if y % 4 == 0 then 1 else 0
  {
  }

  lemma DivStep100(y: int)
    ensures y / 100 - (y - 1) / 100 == if y % 100 == 0 then 1 else 0
  {
  }

  lemma DivStep400(y: int)
    ensures y / 400 - (y - 1) / 400 == if y % 400 == 0 then 1 else 0
  {
  }

  /** A multiple of 400 is a multiple of 100, and a multiple of 100 a
      multiple of 4. */
  lemma DivisorChain(y: int)
    ensures y % 400 == 0 ==> y % 100 == 0
    ensures y % 100 == 0 ==> y % 4 == 0
  {
    if y % 400 == 0 {
      MultipleOf100(y, 4 * (y / 400));
    }
    if y % 100 == 0 {
      MultipleOf4(y, 25 * (y / 100));
    }
  }

  lemma MultipleOf100(y: int, q: int)
    requires y == 100 * q
    ensures y % 100 == 0
  {
  }

  lemma MultipleOf4(y: int, q: int)
    requires y == 4 * q
    ensures y % 4 == 0
  {
  }

  /** Consecutive New Year's days are a year's length apart. */
  lemma YearLength(y: int)
    ensures DaysBeforeYear(y + 1) == DaysBeforeYear(y) + DaysInYear(y)
  {
    var a, b, c := y / 4 - (y - 1) / 4, y / 100 - (y - 1) / 100, y / 400 - (y - 1) / 400;
    assert LeapsBefore(y + 1) - LeapsBefore(y) == a - b + c;
    DivStep4(y);
    DivStep100(y);
    DivStep400(y);
    DivisorChain(y);
    assert a - b + c == if IsLeap(y) then 1 else 0;
  }

  lemma {:induction false} DaysBeforeYearMonotone(a: int, b: int)
    requires a < b
    ensures DaysBeforeYear(a) < DaysBeforeYear(b)
    decreases b - a
  {
    YearLength(a);
    if a + 1 < b {
      DaysBeforeYearMonotone(a + 1, b);
    }
  }

  function YearUp(d: int, y: int): (r: int)
    requires DaysBeforeYear(y) <= d
    ensures DaysBeforeYear(r) <= d < DaysBeforeYear(r + 1)
    decreases d - DaysBeforeYear(y)
  {
    YearLength(y);
    if d < DaysBeforeYear(y + 1) then y else YearUp(d, y + 1)
  }

  function YearDown(d: int, y: int): (r: int)
    requires d < DaysBeforeYear(y + 1)
    ensures DaysBeforeYear(r) <= d < DaysBeforeYear(r + 1)
    decreases DaysBeforeYear(y + 1) - d
  {
    YearLength(y - 1);
    if DaysBeforeYear(y) <= d then y else YearDown(d, y - 1)
  }

  /** The year a day falls in. */
  function YearOfDay(d: int): (y: int)
    ensures DaysBeforeYear(y) <= d < DaysBeforeYear(y + 1)
  {
    if d >= 0 then YearUp(d, 1970) else YearDown(d, 1969)
  }

  /** A day lies in exactly one year. */
  lemma YearOfDayUnique(d: int, y: int)
    requires DaysBeforeYear(y) <= d < DaysBeforeYear(y + 1)
    ensures YearOfDay(d) == y
  {
    var z := YearOfDay(d);
    if z < y {
      DaysBeforeYearMonotone(z + 1, y + 1);
      if z + 1 < y { DaysBeforeYearMonotone(z + 1, y); }
    } else if z > y {
      if y + 1 < z { DaysBeforeYearMonotone(y + 1, z); }
    }
  }

  lemma YearOfDayMonotone(d1: int, d2: int)
    requires d1 <= d2
    ensures YearOfDay(d1) <= YearOfDay(d2)
  {
    var y1, y2 := YearOfDay(d1), YearOfDay(d2);
    if y2 < y1 {
      if y2 + 1 < y1 { DaysBeforeYearMonotone(y2 + 1, y1); }
    }
  }

  /** `getFullYear()`. */
  function YearOf(t: Instant): int
  {
    YearOfDay(DayOf(t))
  }

  /** A later instant never lies in an earlier year. */
  lemma YearOfMonotone(t1: Instant, t2: Instant)
    requires t1 <= t2
    ensures YearOf(t1) <= YearOf(t2)
  {
    assert DayOf(t1) <= DayOf(t2);
    YearOfDayMonotone(DayOf(t1), DayOf(t2));
  }

  function DaysInMonth(y: int, m: int): (r: int)
    requires 1 <= m <= 12
    ensures 28 <= r <= 31
  {
    if m == 2 then (if IsLeap(y) then 29 else 28)
    else if m == 4 || m == 6 || m == 9 || m == 11 then 30
    else 31
  }

  /** Days of a common year before the first of month `m`. */
  function CommonDaysBefore(m: int): (r: int)
    requires 1 <= m <= 12
  {
    if m == 1 then 0 else if m == 2 then 31 else if m == 3 then 59
    else if m == 4 then 90 else if m == 5 then 120 else if m == 6 then 151
    else if m == 7 then 181 else if m == 8 then 212 else if m == 9 then 243
    else if m == 10 then 273 else if m == 11 then 304 else 334
  }

  /** Days of year `y` before the first of month `m`. */
  function DaysBeforeMonth(y: int, m: int): (r: int)
    requires 1 <= m <= 12
    ensures 0 <= r <= 335
  {
    CommonDaysBefore(m) + if m > 2 && IsLeap(y) then 1 else 0
  }

  /** Each month starts where the previous one ends, and December ends the year. */
  lemma MonthStep(y: int, m: int)
    requires 1 <= m <= 12
    ensures m == 1 ==> DaysBeforeMonth(y, m) == 0
    ensures m < 12 ==> DaysBeforeMonth(y, m + 1) == DaysBeforeMonth(y, m) + DaysInMonth(y, m)
    ensures m == 12 ==> DaysBeforeMonth(y, m) + DaysInMonth(y, m) == DaysInYear(y)
  {
  }

  /** The month holding day `doy` (counted from 0) of year `y`, searched
      from month `m` on. */
  function MonthFrom(y: int, doy: int, m: int): (r: int)
    requires 1 <= m <= 12
    requires DaysBeforeMonth(y, m) <= doy < DaysInYear(y)
    ensures m <= r <= 12
    ensures DaysBeforeMonth(y, r) <= doy < DaysBeforeMonth(y, r) + DaysInMonth(y, r)
    decreases 12 - m
  {
    MonthStep(y, m);
    if m == 12 || doy < DaysBeforeMonth(y, m) + DaysInMonth(y, m) then m
    else MonthFrom(y, doy, m + 1)
  }

  /** The month holding day `doy` (counted from 0) of year `y`. */
  function MonthOf(y: int, doy: int): (m: int)
    requires 0 <= doy < DaysInYear(y)
    ensures 1 <= m <= 12
    ensures DaysBeforeMonth(y, m) <= doy < DaysBeforeMonth(y, m) + DaysInMonth(y, m)
  {
    MonthStep(y, 1);
    MonthFrom(y, doy, 1)
  }

  lemma DaysBeforeMonthMonotone(y: int, a: int, b: int)
    requires 1 <= a < b <= 12
    ensures DaysBeforeMonth(y, a) + DaysInMonth(y, a) <= DaysBeforeMonth(y, b)
  {
    MonthStep(y, a);
    assert CommonDaysBefore(a + 1) <= CommonDaysBefore(b);
  }

  datatype Civil = Civil(year: int, month: int, day: int)

  ghost predicate ValidCivil(c: Civil)
  {
    1 <= c.month <= 12 && 1 <= c.day <= DaysInMonth(c.year, c.month)
  }

  /** The civil date of a day number. */
  function ToCivil(d: int): (c: Civil)
    ensures ValidCivil(c)
    ensures c.year == YearOfDay(d)
  {
    var y := YearOfDay(d);
    YearLength(y);
    var doy := d - DaysBeforeYear(y);
    var m := MonthOf(y, doy);
    Civil(y, m, doy - DaysBeforeMonth(y, m) + 1)
  }

  /** ECMAScript's MakeDay: the day number of a year, month and day of month;
      a day past the month's end runs on into the next month. */
  function FromCivil(c: Civil): int
    requires 1 <= c.month <= 12
  {
    DaysBeforeYear(c.year) + DaysBeforeMonth(c.year, c.month) + c.day - 1
  }

  lemma FromToCivil(d: int)
    ensures FromCivil(ToCivil(d)) == d
  {
  }

  /** A day of the year lies in exactly one month. */
  lemma MonthOfUnique(y: int, doy: int, m: int)
    requires 1 <= m <= 12 && 0 <= doy < DaysInYear(y)
    requires DaysBeforeMonth(y, m) <= doy < DaysBeforeMonth(y, m) + DaysInMonth(y, m)
    ensures MonthOf(y, doy) == m
  {
    var m' := MonthOf(y, doy);
    if m' < m {
      DaysBeforeMonthMonotone(y, m', m);
    } else if m < m' {
      DaysBeforeMonthMonotone(y, m, m');
    }
  }

  /** A valid date's day number lies in its own year. */
  lemma DayInYear(c: Civil)
    requires ValidCivil(c)
    ensures DaysBeforeYear(c.year) <= FromCivil(c) < DaysBeforeYear(c.year + 1)
  {
    YearLength(c.year);
    MonthStep(c.year, c.month);
    if c.month < 12 {
      DaysBeforeMonthMonotone(c.year, c.month, 12);
    }
  }

  lemma ToFromCivil(c: Civil)
    requires ValidCivil(c)
    ensures ToCivil(FromCivil(c)) == c
  {
    var d := FromCivil(c);
    DayInYear(c);
    YearOfDayUnique(d, c.year);
    YearLength(c.year);
    MonthOfUnique(c.year, d - DaysBeforeYear(c.year), c.month);
  }

  /** The civil date of an instant, in UTC. */
  function CivilOf(t: Instant): (c: Civil)
    ensures ValidCivil(c)
  {
    ToCivil(DayOf(t))
  }

  /** A month and day of month moved into year `y` stays in year `y`, even
      when the day runs past a short February. */
  lemma MakeDayInYear(y: int, m: int, day: int)
    requires 1 <= m <= 12 && 1 <= day <= 31
    requires day <= DaysInMonth(y, m) || (m == 2 && day == 29)
    ensures YearOfDay(FromCivil(Civil(y, m, day))) == y
    ensures 1 <= day <= DaysInMonth(y, m) ==> ToCivil(FromCivil(Civil(y, m, day))) == Civil(y, m, day)
  {
    YearLength(y);
    if m < 12 {
      DaysBeforeMonthMonotone(y, m, 12);
    }
    YearOfDayUnique(FromCivil(Civil(y, m, day)), y);
    if 1 <= day <= DaysInMonth(y, m) {
      ToFromCivil(Civil(y, m, day));
    }
  }

  /** `date.setFullYear(y)`: the same month, day of month and time of day in
      year `y`. February 29 moved to a common year becomes March 1. */
  function WithYear(t: Instant, y: int): (r: Instant)
    ensures TimeInDay(r) == TimeInDay(t)
    ensures YearOf(r) == y
    ensures var c := CivilOf(t);
            ValidCivil(Civil(y, c.month, c.day)) ==> CivilOf(r) == Civil(y, c.month, c.day)
  {
    var c := CivilOf(t);
    var d := FromCivil(Civil(y, c.month, c.day));
    InstantOfDay(d, TimeInDay(t));
    MakeDayInYear(y, c.month, c.day);
    InstantAt(d, TimeInDay(t))
  }

  /** An instant in a later year than `now` lies after `now`. */
  lemma LaterYearIsLater(t: Instant, now: Instant)
    requires YearOf(t) > YearOf(now)
    ensures t > now
  {
    if t <= now {
      YearOfMonotone(t, now);
    }
  }

  /** `Math.ceil(a / b)` for a positive divisor. */
  function CeilDiv(a: int, b: int): (r: int)
    requires b > 0
    ensures (r - 1) * b < a <= r * b
  {
    -((-a) / b)
  }
}
