/**
  Civil dates from a day count, as the playlist's `EXT-X-PROGRAM-DATE-TIME` needs them, checked
  against the Gregorian calendar's own successor rule.
 */
module Calendar {

  datatype Date = Date(year: int, month: int, day: int)

  datatype Timestamp = Timestamp(date: Date, hour: int, minute: int, second: int, milli: int)

  /** Day 0 is 1970-01-01. An era is 400 years and starts on 1 March. */
  function CivilFromDays(days: int): Date {
    var z := days + 719_468;
    var era := z / 146_097;
    DateInEra(era, z - era * 146_097)
  }

  function DateInEra(era: int, doe: int): Date {
    var yoe := YearOfEra(doe);
    DateInYearFromMarch(yoe + era * 400, doe - (365 * yoe + yoe / 4 - yoe / 100))
  }

  function DateInYearFromMarch(year: int, doy: int): Date {
    var mp := (5 * doy + 2) / 153;
    var day := doy - (153 * mp + 2) / 5 + 1;
    var month := if mp < 10 then mp + 3 else mp - 9;
    Date(year + (if month <= 2 then 1 else 0), month, day)
  }

  function YearOfEra(doe: int): int {
    (doe - doe / 1460 + doe / 36_524 - doe / 146_096) / 365
  }

  /** The instant `secs` seconds and `millis` milliseconds after 1970-01-01T00:00:00Z. */
  function FromUnix(secs: int, millis: int): Timestamp {
    var days, sod := secs / 86_400, secs % 86_400;
    Timestamp(CivilFromDays(days), sod / 3600, sod % 3600 / 60, sod % 60, millis)
  }

  // ---- The Gregorian calendar (section 5.7 and Appendix C of RFC 3339) ----

  predicate Leap(year: int) {
    year % 4 == 0 && (year % 100 != 0 || year % 400 == 0)
  }

  function DaysInMonth(year: int, month: int): int {
    match month
    case 2 => if Leap(year) then 29 else 28
    case 4 => 30
    case 6 => 30
    case 9 => 30
    case 11 => 30
    case _ => 31
  }

  predicate Valid(d: Date) {
    1 <= d.month <= 12 && 1 <= d.day <= DaysInMonth(d.year, d.month)
  }

  function NextDay(d: Date): Date {
    if d.day < DaysInMonth(d.year, d.month) then d.(day := d.day + 1)
    else if d.month < 12 then Date(d.year, d.month + 1, 1)
    else Date(d.year + 1, 1, 1)
  }

  /** 1970-01-01, moved forward one calendar day at a time. */
  function DayAfterEpoch(n: nat): Date {
    if n == 0 then Date(1970, 1, 1) else NextDay(DayAfterEpoch(n - 1))
  }

  // ---- Years of a 400-year era that starts on 1 March ----

  function YearStart(yoe: int): int {
    365 * yoe + yoe / 4 - yoe / 100
  }

  lemma {:induction false} MulAtLeast(d: int, k: int)
    requires 0 < d && 0 < k
    ensures d * k >= d
  {
    var j := k - 1;
    assert d * (j + 1) == d * j + d;
  }

  lemma {:induction false} DivIs(x: int, d: int, q: int)
    requires 0 < d && d * q <= x < d * q + d
    ensures x / d == q
  {
    var p := x / d;
    assert x == d * p + x % d;
    assert d * (p - q) == d * p - d * q && d * (q - p) == d * q - d * p;
    if p < q {
      MulAtLeast(d, q - p);
    } else if p > q {
      MulAtLeast(d, p - q);
    }
  }

  function Day(ce: int, f: int, s: int): int {
    36_524 * ce + 1461 * f + s
  }

  lemma {:induction false} Quotients(ce: int, f: int, s: int)
    requires 0 <= ce <= 3 && 0 <= f <= 24 && 0 <= s <= 1460
    requires f == 24 && ce < 3 ==> s < 1460
    ensures Day(ce, f, s) / 1460 == 25 * ce + f + (if 24 * ce + f + s >= 1460 then 1 else 0)
    ensures Day(ce, f, s) / 36_524 - Day(ce, f, s) / 146_096 == ce
  {
    var doe := Day(ce, f, s);
    DivIs(doe, 1460, 25 * ce + f + (if 24 * ce + f + s >= 1460 then 1 else 0));
    var whole := if ce == 3 && f == 24 && s == 1460 then 1 else 0;
    DivIs(doe, 36_524, ce + whole);
    DivIs(doe, 146_096, whole);
  }

  lemma {:induction false} YearStartIs(ce: int, f: int, y: int)
    requires 0 <= ce && 0 <= f <= 24 && 0 <= y <= 3
    ensures YearStart(100 * ce + 4 * f + y) == 36_524 * ce + 1461 * f + 365 * y
  {
    var yoe := 100 * ce + 4 * f + y;
    DivIs(yoe, 4, 25 * ce + f);
    DivIs(yoe, 100, ce);
  }

  /** Day `s` of the `f`th four-year group of the `ce`th century of an era. */
  lemma {:induction false} YearInCentury(ce: int, f: int, s: int)
    requires 0 <= ce <= 3 && 0 <= f <= 24 && 0 <= s <= 1460
    requires f == 24 && ce < 3 ==> s < 1460
    ensures YearOfEra(Day(ce, f, s)) == 100 * ce + 4 * f + (if s >= 1095 then 3 else s / 365)
  {
    Quotients(ce, f, s);
    var e := if 24 * ce + f + s >= 1460 then 1 else 0;
    var y := if s >= 1095 then 3 else s / 365;
    DivIs(36_500 * ce + 1460 * f + s - e, 365, 100 * ce + 4 * f + y);
  }

  /** The divisions by 1460, 36524 and 146096 find the year a day of the era falls in. */
  lemma {:induction false} YearOfEraIsYear(doe: int)
    requires 0 <= doe < 146_097
    ensures 0 <= YearOfEra(doe) <= 399
    ensures YearStart(YearOfEra(doe)) <= doe
    ensures doe < YearStart(YearOfEra(doe) + 1) + (if YearOfEra(doe) == 399 then 1 else 0)
  {
    var ce := if doe == 146_096 then 3 else doe / 36_524;
    var r := doe - 36_524 * ce;
    var f, s := r / 1461, r % 1461;
    assert doe == Day(ce, f, s);
    YearInCentury(ce, f, s);
    var y := if s >= 1095 then 3 else s / 365;
    YearStartIs(ce, f, y);
    if y < 3 {
      YearStartIs(ce, f, y + 1);
    } else if f < 24 {
      YearStartIs(ce, f + 1, 0);
    } else {
      YearStartIs(ce + 1, 0, 0);
    }
  }

  // ---- The date of a day ----

  /** The 1 March that starts year `y` of the shifted calendar, as a day count. */
  function MarchFirst(y: int): int {
    365 * y + y / 4 - y / 100 + y / 400 - 719_468
  }

  /** Days from 1 March to the first of the month `mp` months later. */
  function MonthStart(mp: int): int {
    (153 * mp + 2) / 5
  }

  function ShiftedYear(d: Date): int {
    if d.month <= 2 then d.year - 1 else d.year
  }

  function MonthsFromMarch(d: Date): int {
    if d.month > 2 then d.month - 3 else d.month + 9
  }

  /** The inverse: the day count of a date. */
  function DaysFromCivil(d: Date): int {
    MarchFirst(ShiftedYear(d)) + MonthStart(MonthsFromMarch(d)) + d.day - 1
  }

  lemma {:induction false} EraYears(era: int, yoe: int)
    requires 0 <= yoe <= 400
    ensures MarchFirst(400 * era + yoe) == 146_097 * era + YearStart(yoe) + (if yoe == 400 then 1 else 0) - 719_468
  {
    var y := 400 * era + yoe;
    assert y / 4 == 100 * era + yoe / 4;
    assert y / 100 == 4 * era + yoe / 100;
    DivIs(y, 400, if yoe == 400 then era + 1 else era);
  }

  lemma {:induction false} MonthOfYear(doy: int)
    requires 0 <= doy <= 365
    ensures var mp := (5 * doy + 2) / 153;
            && 0 <= mp <= 11
            && MonthStart(mp) <= doy
            && (mp < 11 ==> doy < MonthStart(mp + 1))
  {}

  lemma {:induction false} PartsOfDate(year: int, doy: int)
    requires 0 <= doy <= 365
    ensures var d := DateInYearFromMarch(year, doy);
            && 0 <= MonthsFromMarch(d) <= 11
            && 1 <= d.month <= 12
            && ShiftedYear(d) == year
            && MonthsFromMarch(d) == (5 * doy + 2) / 153
            && d.day == doy - MonthStart(MonthsFromMarch(d)) + 1
  {
    MonthOfYear(doy);
  }

  lemma {:induction false} DateInEraIs(era: int, doe: int)
    requires 0 <= doe < 146_097
    ensures var d := DateInEra(era, doe);
            var year, doy := 400 * era + YearOfEra(doe), doe - YearStart(YearOfEra(doe));
            && 0 <= doy <= 365
            && d == DateInYearFromMarch(year, doy)
            && ShiftedYear(d) == year
            && MarchFirst(year) <= MarchFirst(year) + doy < MarchFirst(year + 1)
            && 146_097 * era + doe - 719_468 == MarchFirst(year) + doy
  {
    YearOfEraIsYear(doe);
    var yoe := YearOfEra(doe);
    PartsOfDate(400 * era + yoe, doe - YearStart(yoe));
    EraYears(era, yoe);
    EraYears(era, yoe + 1);
  }

  ghost function DayOfYear(days: int): int {
    days - MarchFirst(ShiftedYear(CivilFromDays(days)))
  }

  /** Every day falls in exactly one shifted year, which `CivilFromDays` finds. */
  lemma {:induction false} DayInYear(days: int)
    ensures var d := CivilFromDays(days);
            && MarchFirst(ShiftedYear(d)) <= days < MarchFirst(ShiftedYear(d) + 1)
            && DaysFromCivil(d) == days
            && 0 <= DayOfYear(days) <= 365
            && d == DateInYearFromMarch(ShiftedYear(d), DayOfYear(days))
  {
    hide YearOfEra, YearStart, DateInEra, DateInYearFromMarch, MarchFirst, MonthStart;
    var z := days + 719_468;
    DateInEraIs(z / 146_097, z % 146_097);
    PartsOfDate(ShiftedYear(CivilFromDays(days)), DayOfYear(days));
  }

  lemma {:induction false} MonthLengths(mp: int)
    requires 0 <= mp < 11
    ensures MonthStart(mp + 1) - MonthStart(mp) == DaysInMonth(1, if mp < 10 then mp + 3 else mp - 9)
  {}

  lemma {:induction false} DivStep(y: int, d: int)
    requires 0 < d
    ensures (y + 1) / d - y / d == if (y + 1) % d == 0 then 1 else 0
  {
    var q, r := y / d, y % d;
    assert y == d * q + r;
    if r == d - 1 {
      assert d * (q + 1) == d * q + d;
      DivIs(y + 1, d, q + 1);
    } else {
      DivIs(y + 1, d, q);
    }
  }

  /** 1 March to 1 March is 366 days exactly when the February in between has 29. */
  lemma {:induction false} LeapYears(y: int)
    ensures MarchFirst(y + 1) - MarchFirst(y) == if Leap(y + 1) then 366 else 365
  {
    DivStep(y, 4);
    DivStep(y, 100);
    DivStep(y, 400);
  }

  /** Every day count, also before 1970, gives a date the calendar has. */
  lemma {:induction false} DateIsValid(days: int)
    ensures Valid(CivilFromDays(days))
  {
    hide CivilFromDays, DateInYearFromMarch;
    var d := CivilFromDays(days);
    var doy := DayOfYear(days);
    DayInYear(days);
    LeapYears(ShiftedYear(d));
    PartsOfDate(ShiftedYear(d), doy);
    hide MarchFirst, Leap, DaysInMonth, Valid;
    MonthOfYear(doy);
    DayInMonth(d, doy);
  }

  lemma {:induction false} DayInMonth(d: Date, doy: int)
    requires 1 <= d.month <= 12 && var mp := MonthsFromMarch(d);
             && d.day == doy - MonthStart(mp) + 1 && MonthStart(mp) <= doy
             && (mp < 11 ==> doy < MonthStart(mp + 1))
                  && (mp == 11 ==> doy < (if Leap(ShiftedYear(d) + 1) then 366 else 365))
    ensures Valid(d)
  {
    hide Leap;
    if MonthsFromMarch(d) < 11 {
      MonthLengths(MonthsFromMarch(d));
    }
  }

  lemma {:induction false} MarchFirstGrows(a: int, b: int)
    requires a < b
    ensures MarchFirst(a + 1) <= MarchFirst(b)
    decreases b - a
  {
    if a + 1 < b {
      MarchFirstGrows(a, b - 1);
      LeapYears(b - 1);
    }
  }

  lemma {:induction false} MonthStartGrows(a: int, b: int)
    requires 0 <= a < b <= 11
    ensures MonthStart(a + 1) <= MonthStart(b)
  {}

  /** A valid date is the date of exactly one day. */
  lemma {:induction false} CivilOfDays(d: Date)
    requires Valid(d)
    ensures CivilFromDays(DaysFromCivil(d)) == d
  {
    hide CivilFromDays, Valid, DaysFromCivil;
    var n := DaysFromCivil(d);
    var e := CivilFromDays(n);
    DayInYear(n);
    DateIsValid(n);
    SameDaySameDate(d, e);
  }

  lemma {:induction false} DateInYear(d: Date)
    requires Valid(d)
    ensures MarchFirst(ShiftedYear(d)) <= DaysFromCivil(d) < MarchFirst(ShiftedYear(d) + 1)
    ensures MonthsFromMarch(d) < 11 ==> MonthStart(MonthsFromMarch(d)) + d.day <= MonthStart(MonthsFromMarch(d) + 1)
  {
    LeapYears(ShiftedYear(d));
    if MonthsFromMarch(d) < 11 {
      MonthLengths(MonthsFromMarch(d));
    }
  }

  lemma {:induction false} SameYear(d: Date, e: Date)
    requires Valid(d) && Valid(e) && DaysFromCivil(d) == DaysFromCivil(e)
    ensures ShiftedYear(d) == ShiftedYear(e)
  {
    hide MarchFirst, MonthStart, Leap, DaysInMonth, DaysFromCivil, Valid;
    DateInYear(d);
    DateInYear(e);
    if ShiftedYear(d) < ShiftedYear(e) {
      MarchFirstGrows(ShiftedYear(d), ShiftedYear(e));
    } else if ShiftedYear(e) < ShiftedYear(d) {
      MarchFirstGrows(ShiftedYear(e), ShiftedYear(d));
    }
  }

  lemma {:induction false} MonthNumbers(d: Date)
    requires Valid(d)
    ensures 0 <= MonthsFromMarch(d) <= 11 && 1 <= d.month <= 12 && d.day >= 1
  {
    hide DaysInMonth;
  }

  lemma {:induction false} SameDaySameDate(d: Date, e: Date)
    requires Valid(d) && Valid(e) && DaysFromCivil(d) == DaysFromCivil(e)
    ensures d == e
  {
    hide MarchFirst, MonthStart, Leap, DaysInMonth, Valid;
    SameYear(d, e);
    DateInYear(d);
    DateInYear(e);
    MonthNumbers(d);
    MonthNumbers(e);
    if MonthsFromMarch(d) < MonthsFromMarch(e) {
      MonthStartGrows(MonthsFromMarch(d), MonthsFromMarch(e));
    } else if MonthsFromMarch(e) < MonthsFromMarch(d) {
      MonthStartGrows(MonthsFromMarch(e), MonthsFromMarch(d));
    }
  }

  lemma {:induction false} NextDayCounts(d: Date)
    requires Valid(d)
    ensures Valid(NextDay(d)) && DaysFromCivil(NextDay(d)) == DaysFromCivil(d) + 1
  {
    hide MarchFirst, Leap;
    LeapYears(ShiftedYear(d));
    if MonthsFromMarch(d) < 11 {
      MonthLengths(MonthsFromMarch(d));
    }
  }

  /** The day after any day has the calendar's next date, leap years and century rules included. */
  lemma {:induction false} DayAfterDay(days: int)
    ensures CivilFromDays(days + 1) == NextDay(CivilFromDays(days))
  {
    hide CivilFromDays, NextDay, Valid, DaysFromCivil;
    var d := CivilFromDays(days);
    DateIsValid(days);
    DayInYear(days);
    NextDayCounts(d);
    DateIsValid(days + 1);
    DayInYear(days + 1);
    SameDaySameDate(CivilFromDays(days + 1), NextDay(d));
  }

  lemma {:induction false} EpochIsDayZero()
    ensures CivilFromDays(0) == Date(1970, 1, 1)
  {
    assert DaysFromCivil(Date(1970, 1, 1)) == 0;
    CivilOfDays(Date(1970, 1, 1));
  }

  /** The arithmetic agrees with counting days one by one from 1970-01-01. */
  lemma {:induction false} CountsFromEpoch(n: nat)
    ensures CivilFromDays(n) == DayAfterEpoch(n)
  {
    hide CivilFromDays, NextDay;
    if n == 0 {
      EpochIsDayZero();
    } else {
      CountsFromEpoch(n - 1);
      DayAfterDay(n - 1);
    }
  }

  lemma {:induction false} TimeOfDay(sod: int)
    requires 0 <= sod < 86_400
    ensures 0 <= sod / 3600 < 24 && 0 <= sod % 3600 / 60 < 60
    ensures sod / 3600 * 3600 + sod % 3600 / 60 * 60 + sod % 60 == sod
  {
    var h, r := sod / 3600, sod % 3600;
    assert sod == 60 * (60 * h + r / 60) + r % 60;
    DivIs(sod, 60, 60 * h + r / 60);
  }

  /** A timestamp gives back the second and the millisecond it was made from, and each of its fields is in range. */
  lemma {:induction false} TimestampRoundTrip(secs: int, millis: int)
    requires 0 <= millis < 1000
    ensures var t := FromUnix(secs, millis);
            && Valid(t.date) && 0 <= t.hour < 24 && 0 <= t.minute < 60 && 0 <= t.second < 60
            && DaysFromCivil(t.date) * 86_400 + t.hour * 3600 + t.minute * 60 + t.second == secs
            && t.milli == millis
  {
    hide CivilFromDays, Valid, DaysFromCivil;
    DateIsValid(secs / 86_400);
    DayInYear(secs / 86_400);
    TimeOfDay(secs % 86_400);
  }
}
