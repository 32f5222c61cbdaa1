/** `getDateRange` (lib/types/date-range.ts): the calendar period of a given kind around the
    current day. The clock reading `new Date()` is a parameter; the display labels are left to the
    locale. */
module DateRange {
  import opened Wrappers
  import opened Calendar

  /** A period: its kind and its first and last moments. */
  datatype Range = Range(kind: string, start: LocalTime, end: LocalTime)

  /** `new Date(now.getFullYear(), now.getMonth(), now.getDate())`: the midnight that starts the
      current day. */
  function Today(now: LocalTime): (r: LocalTime)
    requires ValidTime(now)
    ensures ValidTime(r) && r.ms == 0 && r.date == now.date
    ensures Time(r) <= Time(now) < Time(r) + 86400000
  {
    NormalizeValid(now.date);
    NewDate(now.date.year, now.date.month, now.date.day)
  }

  /** "day": from today's midnight to 24 hours later. Without daylight-saving jumps, adding 24
      hours to a midnight lands on the next day's midnight. */
  function DayRange(now: LocalTime): (r: Range)
    requires ValidTime(now)
    ensures ValidTime(r.start) && ValidTime(r.end) && r.kind == "day"
    ensures r.start == Today(now)
    ensures Time(r.end) == Time(r.start) + 86400000
  {
    var today := Today(now);
    Range("day", today, SetDate(today, today.date.day + 1))
  }

  /** A day number less its weekday is a Sunday. */
  lemma BackToSunday(n: int)
    ensures WeekDay(n - WeekDay(n)) == 0
    ensures WeekDay(n - WeekDay(n) + 7) == 0
  {
  }

  /** "week": from the midnight of the Sunday that starts the current week to the midnight seven
      days later, the next Sunday. */
  function WeekRange(now: LocalTime): (r: Range)
    requires ValidTime(now)
    ensures ValidTime(r.start) && ValidTime(r.end) && r.kind == "week"
    ensures r.start.ms == 0 && r.end.ms == 0
    ensures Time(r.start) == Time(Today(now)) - GetDay(now) * 86400000
    ensures Time(r.end) == Time(r.start) + 7 * 86400000
    ensures GetDay(r.start) == 0 && GetDay(r.end) == 0
  {
    var today := Today(now);
    var weekStart := SetDate(today, today.date.day - GetDay(today));
    var weekEnd := SetDate(weekStart, weekStart.date.day + 7);
    var n := DayNumber(today.date);
    BackToSunday(n);
    assert GetDay(now) == GetDay(today) == WeekDay(n);
    assert DayNumber(weekStart.date) == n - WeekDay(n);
    assert DayNumber(weekEnd.date) == n - WeekDay(n) + 7;
    Range("week", weekStart, weekEnd)
  }

  /** "month": from the first of the current month to its last day, `new Date(y, m + 1, 0)`, both
      at midnight. */
  function MonthRange(now: LocalTime): (r: Range)
    requires ValidTime(now)
    ensures ValidTime(r.start) && ValidTime(r.end) && r.kind == "month"
    ensures r.start == LocalTime(Civil(now.date.year, now.date.month, 1), 0)
    ensures r.end == LocalTime(Civil(now.date.year, now.date.month, DaysIn(now.date.year, now.date.month)), 0)
  {
    var y, m := now.date.year, now.date.month;
    var monthStart := NewDate(y, m, 1);
    var monthEnd := NewDate(y, m + 1, 0);
    NormalizeValid(Civil(y, m, 1));
    LastDay(y, m);
    Range("month", monthStart, monthEnd)
  }

  /** "year": from 1 January to 31 December of the current year, both at midnight. */
  function YearRange(now: LocalTime): (r: Range)
    requires ValidTime(now)
    ensures ValidTime(r.start) && ValidTime(r.end) && r.kind == "year"
    ensures r.start == LocalTime(Civil(now.date.year, 0, 1), 0)
    ensures r.end == LocalTime(Civil(now.date.year, 11, 31), 0)
  {
    var y := now.date.year;
    NormalizeValid(Civil(y, 0, 1));
    NormalizeValid(Civil(y, 11, 31));
    Range("year", NewDate(y, 0, 1), NewDate(y, 11, 31))
  }

  /** `getDateRange(type)`: the period of the kind asked for; a kind outside the four falls
      through the switch and gives undefined. */
  function GetDateRange(kind: string, now: LocalTime): (r: Option<Range>)
    requires ValidTime(now)
    ensures r.Some? <==> kind == "day" || kind == "week" || kind == "month" || kind == "year"
    ensures r.Some? ==> r.value.kind == kind
    ensures kind == "day" ==> r == Some(DayRange(now))
    ensures kind == "week" ==> r == Some(WeekRange(now))
    ensures kind == "month" ==> r == Some(MonthRange(now))
    ensures kind == "year" ==> r == Some(YearRange(now))
  {
    match kind
    case "day" => Some(DayRange(now))
    case "week" => Some(WeekRange(now))
    case "month" => Some(MonthRange(now))
    case "year" => Some(YearRange(now))
    case _ => None
  }

  /** Every period holds the current day: it starts at or before today's midnight and ends at or
      after it. */
  lemma RangeHoldsToday(kind: string, now: LocalTime)
    requires ValidTime(now)
    requires GetDateRange(kind, now).Some?
    ensures var r := GetDateRange(kind, now).value;
            Time(r.start) <= Time(Today(now)) <= Time(r.end)
  {
    var y, m, d := now.date.year, now.date.month, now.date.day;
    if kind == "month" {
      NotAfter(Civil(y, m, 1), now.date);
      NotAfter(now.date, Civil(y, m, DaysIn(y, m)));
    } else if kind == "year" {
      NotAfter(Civil(y, 0, 1), now.date);
      NotAfter(now.date, Civil(y, 11, 31));
    }
  }
}
