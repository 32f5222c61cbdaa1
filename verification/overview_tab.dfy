/** The date filter of the overview tab (components/dashboard/tabs/overview-tab.tsx): where a
    period of the chosen kind starts, which reviews fall in it, and the satisfaction rate of those
    reviews. The clock reading `new Date()` and the runtime's reading of a review's `date` text are
    parameters. */
module OverviewTab {
  import opened Wrappers
  import opened Json
  import opened Seqs
  import opened TabList
  import opened Calendar
  import ReviewsTab

  /** The length of the month before the one of `c`. */
  function PreviousMonthLength(c: Civil): (r: int)
    requires Valid(c)
    ensures 28 <= r <= 31
  {
    if c.month == 0 then DaysIn(c.year - 1, 11) else DaysIn(c.year, c.month - 1)
  }

  /** `d.setMonth(now.getMonth() - 1)` goes back exactly the length of the previous month: to
      the same day of that month when it has one, otherwise to a day of the current month (31
      March goes back to 3 March, or 2 March in a leap year). */
  lemma MonthBack(now: LocalTime)
    requires ValidTime(now)
    ensures Time(SetMonth(now, now.date.month - 1)) == Time(now) - PreviousMonthLength(now.date) * 86400000
    ensures var c := now.date;
            c.day <= PreviousMonthLength(c) ==>
              SetMonth(now, c.month - 1).date ==
                (if c.month == 0 then Civil(c.year - 1, 11, c.day) else Civil(c.year, c.month - 1, c.day))
    ensures var c := now.date;
            c.day > PreviousMonthLength(c) ==>
              SetMonth(now, c.month - 1).date == Civil(c.year, c.month, c.day - PreviousMonthLength(c))
  {
    var y, m, d := now.date.year, now.date.month, now.date.day;
    var back := PreviousMonthLength(now.date);
    DayBack(y, m, d);
    assert Time(now) == MakeDay(y, m, d) * 86400000 + now.ms;
    var landed := SetMonth(now, m - 1).date;
    if d <= back {
      var c := if m == 0 then Civil(y - 1, 11, d) else Civil(y, m - 1, d);
      if m == 0 {
        Carry(y, -1, d);
        assert -1 / 12 == -1 && -1 % 12 == 11;
      }
      SameDay(landed, c);
    } else {
      DayShift(y, m, d);
      DayShift(y, m, d - back);
      SameDay(landed, Civil(y, m, d - back));
    }
  }

  /** The same day of the previous month is that month's length earlier. */
  lemma DayBack(y: int, m: int, d: int)
    requires 0 <= m < 12
    ensures MakeDay(y, m - 1, d) == MakeDay(y, m, d) - (if m == 0 then DaysIn(y - 1, 11) else DaysIn(y, m - 1))
  {
    if m == 0 {
      JanuaryBack(y, d);
    } else {
      SmallMonth(m - 1);
      SmallMonth(m);
      NextMonth(y, m - 1);
      DayShift(y, m - 1, d);
      DayShift(y, m, d);
    }
  }

  /** Month -1 is December of the year before. */
  lemma JanuaryBack(y: int, d: int)
    ensures MakeDay(y, -1, d) == MakeDay(y, 0, d) - DaysIn(y - 1, 11)
  {
    assert -1 / 12 == -1 && -1 % 12 == 11;
    SmallMonth(0);
    YearLength(y - 1);
  }

  /** `d.setFullYear(now.getFullYear() - 1)` goes back 365 or 366 days: a year that holds a
      29 February is 366 days long, and 29 February itself carries into 1 March. */
  lemma YearBack(now: LocalTime)
    requires ValidTime(now)
    ensures var back := Time(now) - Time(SetFullYear(now, now.date.year - 1));
            365 * 86400000 <= back <= 366 * 86400000
  {
    YearBefore(now.date.year, now.date.month, now.date.day);
  }

  /** The same day a year earlier is 365 or 366 days before. */
  lemma YearBefore(y: int, m: int, d: int)
    requires 0 <= m < 12
    ensures 365 <= MakeDay(y, m, d) - MakeDay(y - 1, m, d) <= 366
  {
    InMonth(y - 1, m, d);
    InMonth(y, m, d);
    YearLength(y - 1);
    NoLeapPair(y - 1);
  }

  /** `getStartDate(range)`: the moment one day, seven days, one month or one year before now,
      with the same time of day; any other kind goes back one month. */
  function StartDate(kind: string, now: LocalTime): (r: LocalTime)
    requires ValidTime(now)
    ensures ValidTime(r) && r.ms == now.ms
    ensures kind == "day" ==> Time(r) == Time(now) - 86400000
    ensures kind == "week" ==> Time(r) == Time(now) - 7 * 86400000
    ensures kind == "year" ==> Time(now) - 366 * 86400000 <= Time(r) <= Time(now) - 365 * 86400000
    ensures kind != "day" && kind != "week" && kind != "year" ==>
              Time(r) == Time(now) - PreviousMonthLength(now.date) * 86400000
  {
    match kind
    case "day" => SetDate(now, now.date.day - 1)
    case "week" => SetDate(now, now.date.day - 7)
    case "year" => YearBack(now); SetFullYear(now, now.date.year - 1)
    case _ => MonthBack(now); SetMonth(now, now.date.month - 1)
  }

  /** A longer kind of period starts earlier: a year before a month, a month before a week, a
      week before a day. */
  lemma StartsNest(now: LocalTime)
    requires ValidTime(now)
    ensures Time(StartDate("year", now)) <= Time(StartDate("month", now))
    ensures Time(StartDate("month", now)) <= Time(StartDate("week", now))
    ensures Time(StartDate("week", now)) < Time(StartDate("day", now))
  {
  }

  /** The filter's test: the review has a truthy `date` that reads as a moment no earlier than the
      start. `read` stands for `new Date(r.date)`, None for an invalid date, which compares false. */
  predicate InRange(review: Row, kind: string, now: LocalTime, read: Json -> Option<int>)
    requires ValidTime(now)
  {
    var date := Get(review, "date");
    Truthy(date) && read(date.value).Some? && read(date.value).value >= Time(StartDate(kind, now))
  }

  /** `filterReviewsByRange(reviews, range)`: the reviews dated in the period, in their order. */
  function FilterReviewsByRange(reviews: seq<Row>, kind: string, now: LocalTime, read: Json -> Option<int>): (r: seq<Row>)
    requires ValidTime(now)
    ensures |r| <= |reviews|
    ensures forall i | 0 <= i < |r| :: r[i] in reviews && InRange(r[i], kind, now, read)
    ensures forall i | 0 <= i < |reviews| :: reviews[i] in r <==> InRange(reviews[i], kind, now, read)
    ensures forall i | 0 <= i < |reviews| :: !Truthy(Get(reviews[i], "date")) ==> reviews[i] !in r
  {
    var p := (x: Row) => InRange(x, kind, now, read);
    FilterMembers(reviews, p);
    Filter(reviews, p)
  }

  /** A review in the period of a shorter kind is in the period of every longer kind. */
  lemma FilterNests(reviews: seq<Row>, now: LocalTime, read: Json -> Option<int>)
    requires ValidTime(now)
    ensures forall i | 0 <= i < |reviews| ::
              (reviews[i] in FilterReviewsByRange(reviews, "day", now, read) ==>
                 reviews[i] in FilterReviewsByRange(reviews, "week", now, read)) &&
              (reviews[i] in FilterReviewsByRange(reviews, "week", now, read) ==>
                 reviews[i] in FilterReviewsByRange(reviews, "month", now, read)) &&
              (reviews[i] in FilterReviewsByRange(reviews, "month", now, read) ==>
                 reviews[i] in FilterReviewsByRange(reviews, "year", now, read))
  {
    StartsNest(now);
  }

  /** `filterSitesByRange` and `filterOriginsByRange`: placeholders that keep every entry. */
  function Unfiltered<T>(xs: seq<T>, kind: string): (r: seq<T>)
    ensures r == xs
  {
    xs
  }

  /** The satisfaction rate the tab shows: the rounded share of positive reviews among those in
      the period, 0 when the period holds none. */
  function Satisfaction(reviews: seq<Row>, kind: string, now: LocalTime, read: Json -> Option<int>): (r: int)
    requires ValidTime(now)
    ensures 0 <= r <= 100
    ensures (forall i | 0 <= i < |reviews| :: !InRange(reviews[i], kind, now, read)) ==> r == 0
    ensures r == ReviewsTab.SatisfactionRate(FilterReviewsByRange(reviews, kind, now, read))
  {
    var inRange := FilterReviewsByRange(reviews, kind, now, read);
    assert (forall i | 0 <= i < |reviews| :: !InRange(reviews[i], kind, now, read)) ==> |inRange| == 0 by {
      if |inRange| > 0 {
        assert inRange[0] in reviews;
      }
    }
    ReviewsTab.SatisfactionRate(inRange)
  }
}
