/** The proleptic Gregorian calendar the way ECMAScript's `Date` computes it (section 21.4.1 of
    ECMA-262): days are numbered from 1 January 1970, months run from 0 to 11, and
    `new Date(y, m, d)` and the setters accept months and days out of range and carry them into
    the neighbouring months and years. Local time is taken as one timeline without daylight-saving
    jumps, so every day lasts 86 400 000 milliseconds. */
module Calendar {
  const MsPerDay: int := 86400000

  predicate Leap(y: int) {
    y % 4 == 0 && (y % 100 != 0 || y % 400 == 0)
  }

  /** The length of month `m` (0 is January) of year `y`. */
  function DaysIn(y: int, m: int): (r: int)
    requires 0 <= m < 12
    ensures 28 <= r <= 31
    ensures r == 29 <==> m == 1 && Leap(y)
  {
    if m == 1 then (if Leap(y) then 29 else 28)
    else if m == 3 || m == 5 || m == 8 || m == 10 then 30
    else 31
  }

  /** The days of year `y` before the first of month `m`. */
  function MonthStart(y: int, m: int): int
    requires 0 <= m < 12
  {
    var common :=
      if m < 6 then
        if m < 3 then (if m == 0 then 0 else if m == 1 then 31 else 59)
        else (if m == 3 then 90 else if m == 4 then 120 else 151)
      else
        if m < 9 then (if m == 6 then 181 else if m == 7 then 212 else 243)
        else (if m == 9 then 273 else if m == 10 then 304 else 334);
    common + (if Leap(y) && m >= 2 then 1 else 0)
  }

  /** DayFromYear: the number of the day 1 January of year `y` (floor divisions). */
  function DayFromYear(y: int): int {
    365 * (y - 1970) + (y - 1969) / 4 - (y - 1901) / 100 + (y - 1601) / 400
  }

  /** MakeDay: the number of day `d` of month `m` of year `y`, the month first carried into the
      year, the day then counted from the first of that month. */
  function MakeDay(y: int, m: int, d: int): int {
    var ym := y + m / 12;
    var mn := m % 12;
    DayFromYear(ym) + MonthStart(ym, mn) + d - 1
  }

  /** WeekDay: 0 is Sunday; day 0, 1 January 1970, was a Thursday. */
  function WeekDay(n: int): (r: int)
    ensures 0 <= r < 7
  {
    (n + 4) % 7
  }

  /** A calendar date. */
  datatype Civil = Civil(year: int, month: int, day: int)

  predicate Valid(c: Civil) {
    0 <= c.month < 12 && 1 <= c.day <= DaysIn(c.year, c.month)
  }

  function DayNumber(c: Civil): int {
    MakeDay(c.year, c.month, c.day)
  }

  /** Stepping over a multiple of 4, 100 or 400 adds one to the quotient. */
  lemma StepDiv(a: int)
    ensures (a + 1) / 4 - a / 4 == if (a + 1) % 4 == 0 then 1 else 0
    ensures (a + 1) / 100 - a / 100 == if (a + 1) % 100 == 0 then 1 else 0
    ensures (a + 1) / 400 - a / 400 == if (a + 1) % 400 == 0 then 1 else 0
  {
  }

  /** Shifting by a multiple of the divisor keeps the remainder. */
  lemma ShiftMod(y: int)
    ensures (y - 1968) % 4 == y % 4
    ensures (y - 1900) % 100 == y % 100
    ensures (y - 1600) % 400 == y % 400
  {
    assert y - 1968 == 4 * (y / 4 - 492) + y % 4;
    assert y - 1900 == 100 * (y / 100 - 19) + y % 100;
    assert y - 1600 == 400 * (y / 400 - 4) + y % 400;
  }

  /** A multiple of 400 is one of 100, and a multiple of 100 one of 4. */
  lemma Multiples(y: int)
    ensures y % 400 == 0 ==> y % 100 == 0
    ensures y % 100 == 0 ==> y % 4 == 0
  {
    assert y == 400 * (y / 400) + y % 400;
    assert y == 100 * (y / 100) + y % 100;
    assert y == 4 * (y / 4) + y % 4;
    if y % 400 == 0 {
      assert 100 * (4 * (y / 400) - y / 100) == y % 100;
    }
    if y % 100 == 0 {
      assert 4 * (25 * (y / 100) - y / 4) == y % 4;
    }
  }

  /** A year is 365 days long, 366 in a leap year. */
  lemma YearLength(y: int)
    ensures DayFromYear(y + 1) == DayFromYear(y) + MonthStart(y, 11) + 31
  {
    StepDiv(y - 1969);
    StepDiv(y - 1901);
    StepDiv(y - 1601);
    ShiftMod(y);
    Multiples(y);
    var a := (y - 1968) / 4 - (y - 1969) / 4;
    var b := (y - 1900) / 100 - (y - 1901) / 100;
    var c := (y - 1600) / 400 - (y - 1601) / 400;
    assert DayFromYear(y + 1) == DayFromYear(y) + 365 + a - b + c;
    assert MonthStart(y, 11) + 31 == 365 + (if Leap(y) then 1 else 0);
  }

  /** The first of the next month is as many days on as the month is long. */
  lemma NextMonth(y: int, m: int)
    requires 0 <= m < 12
    ensures MakeDay(y, m + 1, 1) == MakeDay(y, m, 1) + DaysIn(y, m)
  {
    SmallMonth(m);
    if m == 11 {
      assert 12 / 12 == 1 && 12 % 12 == 0;
      SmallMonth(0);
      YearLength(y);
    } else {
      SmallMonth(m + 1);
      MonthStep(y, m);
    }
  }

  /** Within a year, the next month starts as many days on as the month is long. */
  lemma MonthStep(y: int, m: int)
    requires 0 <= m < 11
    ensures MonthStart(y, m + 1) == MonthStart(y, m) + DaysIn(y, m)
  {
  }

  /** Two years in a row are never both leap years. */
  lemma NoLeapPair(y: int)
    ensures !(Leap(y) && Leap(y + 1))
  {
  }

  /** MakeDay counts days from the first of the month. */
  lemma InMonth(y: int, m: int, d: int)
    requires 0 <= m < 12
    ensures m / 12 == 0 && m % 12 == m
    ensures MakeDay(y, m, d) == DayFromYear(y) + MonthStart(y, m) + d - 1
  {
  }

  /** MakeDay moves by whole days with the day, whatever the month. */
  lemma DayShift(y: int, m: int, d: int)
    ensures MakeDay(y, m, d) == MakeDay(y, m, 1) + d - 1
  {
  }

  /** MakeDay carries the month into the year first. */
  lemma Carry(y: int, m: int, d: int)
    ensures 0 <= m % 12 < 12
    ensures MakeDay(y, m, d) == MakeDay(y + m / 12, m % 12, d)
  {
    InMonth(y + m / 12, m % 12, d);
  }

  /** The date `new Date(y, m, d)` and the setters land on: an out-of-range month carries into
      the year, then an out-of-range day into the neighbouring months. */
  function Normalize(y: int, m: int, d: int): (c: Civil)
    ensures Valid(c)
    ensures DayNumber(c) == MakeDay(y, m, d)
  {
    Carry(y, m, d);
    NormalizeDayNumber(y + m / 12, m % 12, d);
    NormalizeDay(y + m / 12, m % 12, d)
  }

  /** Day `d` of month `m` of year `y`, carried one month at a time until it is in range. */
  function NormalizeDay(y: int, m: int, d: int): (c: Civil)
    requires 0 <= m < 12
    ensures Valid(c)
    decreases if d < 1 then 1 else 0, if d < 1 then -d else d
  {
    if d < 1 then
      var py := if m == 0 then y - 1 else y;
      var pm := if m == 0 then 11 else m - 1;
      NormalizeDay(py, pm, d + DaysIn(py, pm))
    else if d > DaysIn(y, m) then
      var ny := if m == 11 then y + 1 else y;
      var nm := if m == 11 then 0 else m + 1;
      NormalizeDay(ny, nm, d - DaysIn(y, m))
    else
      Civil(y, m, d)
  }

  /** Carrying the day into the neighbouring months keeps its day number. */
  lemma {:induction false} NormalizeDayNumber(y: int, m: int, d: int)
    requires 0 <= m < 12
    ensures DayNumber(NormalizeDay(y, m, d)) == MakeDay(y, m, d)
    decreases if d < 1 then 1 else 0, if d < 1 then -d else d
  {
    if d < 1 {
      var py := if m == 0 then y - 1 else y;
      var pm := if m == 0 then 11 else m - 1;
      CarryBack(y, m, d);
      StepBack(y, m, d);
      NormalizeDayNumber(py, pm, d + DaysIn(py, pm));
    } else if d > DaysIn(y, m) {
      var ny := if m == 11 then y + 1 else y;
      var nm := if m == 11 then 0 else m + 1;
      CarryOn(y, m, d);
      StepOn(y, m, d);
      NormalizeDayNumber(ny, nm, d - DaysIn(y, m));
    } else {
      assert NormalizeDay(y, m, d) == Civil(y, m, d);
    }
  }

  /** A day below 1 is normalised as that day plus the previous month's length, of that month. */
  lemma CarryBack(y: int, m: int, d: int)
    requires 0 <= m < 12 && d < 1
    ensures var py := if m == 0 then y - 1 else y;
            var pm := if m == 0 then 11 else m - 1;
            NormalizeDay(y, m, d) == NormalizeDay(py, pm, d + DaysIn(py, pm))
  {
  }

  /** A day past the month's end is normalised as that day less the month's length, of the month
      after. */
  lemma CarryOn(y: int, m: int, d: int)
    requires 0 <= m < 12 && d > DaysIn(y, m)
    ensures var ny := if m == 11 then y + 1 else y;
            var nm := if m == 11 then 0 else m + 1;
            NormalizeDay(y, m, d) == NormalizeDay(ny, nm, d - DaysIn(y, m))
  {
  }

  /** Day `d` of a month is day `d` plus the length of the month before, of that month. */
  lemma StepBack(y: int, m: int, d: int)
    requires 0 <= m < 12
    ensures var py := if m == 0 then y - 1 else y;
            var pm := if m == 0 then 11 else m - 1;
            MakeDay(py, pm, d + DaysIn(py, pm)) == MakeDay(y, m, d)
  {
    SmallMonth(m);
    if m == 0 {
      SmallMonth(11);
      YearLength(y - 1);
    } else {
      SmallMonth(m - 1);
      MonthStep(y, m - 1);
    }
  }

  /** Day `d` of a month is day `d` less its length of the month after. */
  lemma StepOn(y: int, m: int, d: int)
    requires 0 <= m < 12
    ensures var ny := if m == 11 then y + 1 else y;
            var nm := if m == 11 then 0 else m + 1;
            MakeDay(ny, nm, d - DaysIn(y, m)) == MakeDay(y, m, d)
  {
    SmallMonth(m);
    if m == 11 {
      SmallMonth(0);
      YearLength(y);
    } else {
      SmallMonth(m + 1);
      MonthStep(y, m);
    }
  }

  /** A date already in range stays as it is. */
  lemma NormalizeValid(c: Civil)
    requires Valid(c)
    ensures Normalize(c.year, c.month, c.day) == c
  {
    SameDay(Normalize(c.year, c.month, c.day), c);
  }

  /** A month in range carries nothing into the year. */
  lemma SmallMonth(m: int)
    requires 0 <= m < 12
    ensures m / 12 == 0 && m % 12 == m
  {
  }

  /** Day numbering is one-to-one on valid dates: distinct dates have distinct numbers. */
  lemma {:induction false} DayNumberOrder(a: Civil, b: Civil)
    requires Valid(a) && Valid(b)
    requires a.year < b.year || (a.year == b.year && a.month < b.month) ||
             (a.year == b.year && a.month == b.month && a.day < b.day)
    ensures DayNumber(a) < DayNumber(b)
  {
    InMonth(a.year, a.month, a.day);
    InMonth(b.year, b.month, b.day);
    if a.year < b.year {
      YearEnd(a);
      YearsApart(a.year + 1, b.year);
    } else if a.month < b.month {
      MonthsApart(a.year, a.month, b.month);
    }
  }

  /** Valid dates in calendar order have numbers in the same order. */
  lemma NotAfter(a: Civil, b: Civil)
    requires Valid(a) && Valid(b)
    requires a.year < b.year || (a.year == b.year && a.month < b.month) ||
             (a.year == b.year && a.month == b.month && a.day <= b.day)
    ensures DayNumber(a) <= DayNumber(b)
  {
    if a != b {
      DayNumberOrder(a, b);
    }
  }

  /** Day 0 of the next month is the last day of the month. */
  lemma LastDay(y: int, m: int)
    requires 0 <= m < 12
    ensures Normalize(y, m + 1, 0) == Civil(y, m, DaysIn(y, m))
  {
    NextMonth(y, m);
    DayShift(y, m + 1, 0);
    DayShift(y, m, DaysIn(y, m));
    SameDay(Normalize(y, m + 1, 0), Civil(y, m, DaysIn(y, m)));
  }

  /** Two valid dates with the same number are the same date. */
  lemma SameDay(a: Civil, b: Civil)
    requires Valid(a) && Valid(b) && DayNumber(a) == DayNumber(b)
    ensures a == b
  {
    if a.year < b.year || (a.year == b.year && a.month < b.month) ||
       (a.year == b.year && a.month == b.month && a.day < b.day) {
      DayNumberOrder(a, b);
    } else if a != b {
      DayNumberOrder(b, a);
    }
  }

  /** Every date of a year falls before 1 January of the next. */
  lemma YearEnd(c: Civil)
    requires Valid(c)
    ensures DayNumber(c) < DayFromYear(c.year + 1)
  {
    YearLength(c.year);
    InMonth(c.year, c.month, c.day);
    assert MonthStart(c.year, c.month) + DaysIn(c.year, c.month) <= MonthStart(c.year, 11) + 31;
  }

  /** Later years start later. */
  lemma {:induction false} YearsApart(y: int, z: int)
    requires y <= z
    ensures DayFromYear(y) <= DayFromYear(z)
    decreases z - y
  {
    if y < z {
      YearLength(y);
      YearsApart(y + 1, z);
    }
  }

  /** Within a year, every day of an earlier month comes before the first of a later one. */
  lemma MonthsApart(y: int, m: int, n: int)
    requires 0 <= m < n < 12
    ensures MonthStart(y, m) + DaysIn(y, m) <= MonthStart(y, n)
  {
  }

  /** A moment of local time: its date and the milliseconds since that date's midnight. */
  datatype LocalTime = LocalTime(date: Civil, ms: int)

  predicate ValidTime(t: LocalTime) {
    Valid(t.date) && 0 <= t.ms < MsPerDay
  }

  /** `getTime()`: milliseconds since the start of day 0. */
  function Time(t: LocalTime): int {
    DayNumber(t.date) * 86400000 + t.ms
  }

  /** `getDay()`. */
  function GetDay(t: LocalTime): (r: int)
    ensures 0 <= r < 7
  {
    WeekDay(DayNumber(t.date))
  }

  /** `new Date(y, m, d)`: midnight of the normalized date. */
  function NewDate(y: int, m: int, d: int): (r: LocalTime)
    ensures ValidTime(r) && r.ms == 0
    ensures Time(r) == MakeDay(y, m, d) * 86400000
  {
    LocalTime(Normalize(y, m, d), 0)
  }

  /** `setDate(n)`: day `n` of the same month, at the same time of day; days out of range move
      the moment by whole days. */
  function SetDate(t: LocalTime, n: int): (r: LocalTime)
    requires ValidTime(t)
    ensures ValidTime(r) && r.ms == t.ms
    ensures DayNumber(r.date) == DayNumber(t.date) + n - t.date.day
    ensures Time(r) == Time(t) + (n - t.date.day) * 86400000
  {
    DayShift(t.date.year, t.date.month, n);
    DayShift(t.date.year, t.date.month, t.date.day);
    LocalTime(Normalize(t.date.year, t.date.month, n), t.ms)
  }

  /** `setMonth(m)`: the same day of month `m`, at the same time of day, carried over when that
      month is shorter. */
  function SetMonth(t: LocalTime, m: int): (r: LocalTime)
    requires ValidTime(t)
    ensures ValidTime(r) && r.ms == t.ms
    ensures Time(r) == MakeDay(t.date.year, m, t.date.day) * 86400000 + t.ms
  {
    LocalTime(Normalize(t.date.year, m, t.date.day), t.ms)
  }

  /** `setFullYear(y)`: the same month and day of year `y`, at the same time of day; 29 February
      of a year that has none carries into 1 March. */
  function SetFullYear(t: LocalTime, y: int): (r: LocalTime)
    requires ValidTime(t)
    ensures ValidTime(r) && r.ms == t.ms
    ensures Time(r) == MakeDay(y, t.date.month, t.date.day) * 86400000 + t.ms
  {
    LocalTime(Normalize(y, t.date.month, t.date.day), t.ms)
  }
}
