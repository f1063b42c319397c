// Calendar dates as Go's `time` package normalises them. Time zones and the
// clock are not modelled: `now` is always a parameter.
module Calendar {
  import Numbers

  datatype Date = Date(year: int, month: int, day: int)

  /** A date with a time of day, in seconds after midnight. */
  datatype Moment = Moment(date: Date, second: int)

  predicate IsLeap(y: int)
  {
    (y % 4 == 0 && y % 100 != 0) || y % 400 == 0
  }

  function DaysIn(year: int, month: int): (n: int)
    requires 1 <= month <= 12
    ensures 28 <= n <= 31
  {
    if month == 2 then (if IsLeap(year) then 29 else 28)
    else if month == 4 || month == 6 || month == 9 || month == 11 then 30
    else 31
  }

  predicate Valid(d: Date)
  {
    1 <= d.month <= 12 && 1 <= d.day <= DaysIn(d.year, d.month)
  }

  /** Months since year 0, so that consecutive months differ by one. */
  function MonthIndex(d: Date): int
  {
    d.year * 12 + (d.month - 1)
  }

  /** The first day of the month with the given index. */
  function MonthStart(index: int): (r: Date)
    ensures Valid(r) && r.day == 1 && MonthIndex(r) == index
  {
    Date(index / 12, index % 12 + 1, 1)
  }

  /**
   * time.AddDate(0, months, 0) as Go computes it: the month moves first, and a
   * day past the end of the target month then rolls over into the month after.
   */
  function AddDate(d: Date, months: int): (r: Date)
    requires Valid(d)
    ensures Valid(r)
    ensures var target := MonthStart(MonthIndex(d) + months);
      (d.day <= DaysIn(target.year, target.month) ==>
        MonthIndex(r) == MonthIndex(d) + months && r.day == d.day) &&
      (d.day > DaysIn(target.year, target.month) ==>
        MonthIndex(r) == MonthIndex(d) + months + 1 && r.day == d.day - DaysIn(target.year, target.month))
  {
    var target := MonthStart(MonthIndex(d) + months);
    var dim := DaysIn(target.year, target.month);
    if d.day <= dim then Date(target.year, target.month, d.day)
    else
      var next := MonthStart(MonthIndex(d) + months + 1);
      Date(next.year, next.month, d.day - dim)
  }

  /**
   * The same day `k` months earlier, clamped to the end of a shorter month:
   * the date that "the same period last month" (and k months ago) intends.
   */
  function MonthsBefore(d: Date, k: nat): (r: Date)
    requires Valid(d)
    ensures Valid(r)
    ensures MonthIndex(r) == MonthIndex(d) - k
    ensures r.day <= d.day
  {
    var target := MonthStart(MonthIndex(d) - k);
    var dim := DaysIn(target.year, target.month);
    Date(target.year, target.month, if d.day <= dim then d.day else dim)
  }

  /** The two agree exactly when the day exists in the target month. */
  lemma AddDateAgreesWhenDayFits(d: Date, k: nat)
    requires Valid(d)
    ensures var target := MonthStart(MonthIndex(d) - k);
      (AddDate(d, -(k as int)) == MonthsBefore(d, k)) <==> d.day <= DaysIn(target.year, target.month)
  {
    var target := MonthStart(MonthIndex(d) - k);
    if d.day > DaysIn(target.year, target.month) {
      assert MonthIndex(AddDate(d, -(k as int))) != MonthIndex(MonthsBefore(d, k));
    }
  }

  /** On March 31st, "one month ago" as Go computes it is March 2nd. */
  lemma LastMonthOnMarch31()
    ensures AddDate(Date(2024, 3, 31), -1) == Date(2024, 3, 2)
    ensures MonthIndex(AddDate(Date(2024, 3, 31), -1)) == MonthIndex(Date(2024, 3, 31))
    ensures MonthsBefore(Date(2024, 3, 31), 1) == Date(2024, 2, 29)
  {
    assert MonthIndex(Date(2024, 3, 31)) == 24290;
    assert 24289 / 12 == 2024 && 24289 % 12 == 1;
    assert MonthStart(24289) == Date(2024, 2, 1);
    assert 24290 / 12 == 2024 && 24290 % 12 == 2;
    assert MonthStart(24290) == Date(2024, 3, 1);
    assert IsLeap(2024) && DaysIn(2024, 2) == 29;
  }

  /** On December 31st, "i months ago" for i = 6 down to 1 lands in Jul, Jul, Aug, Oct, Oct, Dec. */
  lemma SixMonthsBackOnDecember31()
    ensures var now := Date(2024, 12, 31);
      [AddDate(now, -6).month, AddDate(now, -5).month, AddDate(now, -4).month,
       AddDate(now, -3).month, AddDate(now, -2).month, AddDate(now, -1).month]
      == [7, 7, 8, 10, 10, 12]
  {
    AddDateBackFromDecember31();
  }

  /** The dates behind SixMonthsBackOnDecember31: a 31st rolls over past June, September and November. */
  lemma AddDateBackFromDecember31()
    ensures var now := Date(2024, 12, 31);
      && AddDate(now, -6) == Date(2024, 7, 1) && AddDate(now, -5) == Date(2024, 7, 31)
      && AddDate(now, -4) == Date(2024, 8, 31) && AddDate(now, -3) == Date(2024, 10, 1)
      && AddDate(now, -2) == Date(2024, 10, 31) && AddDate(now, -1) == Date(2024, 12, 1)
  {
    var now := Date(2024, 12, 31);
    assert MonthIndex(now) == 24299;
    MonthStartIn2024(5);
    MonthStartIn2024(6);
    MonthStartIn2024(7);
    MonthStartIn2024(8);
    MonthStartIn2024(9);
    MonthStartIn2024(10);
    MonthStartIn2024(11);
  }

  lemma MonthStartIn2024(m: nat)
    requires m < 12
    ensures MonthStart(24288 + m) == Date(2024, m + 1, 1)
  {
    assert (24288 + m) / 12 == 2024;
  }

  /** The months `MonthsBefore` gives for k = 6 down to 1 are six distinct consecutive months. */
  lemma MonthsBeforeConsecutive(now: Date, i: nat, j: nat)
    requires Valid(now) && i < j
    ensures MonthIndex(MonthsBefore(now, i)) - MonthIndex(MonthsBefore(now, j)) == j - i
  {
  }

  /** getFirstDayOfMonth: midnight on the first of the month. */
  function FirstDayOfMonth(d: Date): (m: Moment)
    requires Valid(d)
    ensures Valid(m.date) && m.date.day == 1 && MonthIndex(m.date) == MonthIndex(d) && m.second == 0
  {
    Moment(Date(d.year, d.month, 1), 0)
  }

  /** Day 0 of the following month, which Go normalises to the last day of this one. */
  function LastDayOfMonth(d: Date): (r: Date)
    requires Valid(d)
    ensures Valid(r) && MonthIndex(r) == MonthIndex(d) && r.day >= d.day
  {
    Date(d.year, d.month, DaysIn(d.year, d.month))
  }

  function NextDay(d: Date): (r: Date)
    requires Valid(d)
    ensures Valid(r)
  {
    if d.day < DaysIn(d.year, d.month) then Date(d.year, d.month, d.day + 1)
    else MonthStart(MonthIndex(d) + 1)
  }

  /** The last day of a month is the day before the first of the next month. */
  lemma LastDayIsDayBeforeNextMonth(d: Date)
    requires Valid(d)
    ensures NextDay(LastDayOfMonth(d)) == MonthStart(MonthIndex(d) + 1)
    ensures forall e :: Valid(e) && MonthIndex(e) == MonthIndex(d) ==> e.day <= LastDayOfMonth(d).day
  {
  }

  /** The query window of a month's costs (getFirstDayOfMonth up to endDate): from the first of endDate's month up to endDate. */
  function MonthPeriod(endDate: Date): (period: (Date, Date))
    requires Valid(endDate)
    ensures period.0.day == 1 && MonthIndex(period.0) == MonthIndex(endDate)
    ensures period.1 == endDate
  {
    (FirstDayOfMonth(endDate).date, endDate)
  }

  /**
   * The end date of the last-month queries, `now.AddDate(0, -1, 0)`: a day
   * in the previous month when `now`'s day exists there, and otherwise a
   * day early in the current month (the overflow of LastMonthOnMarch31).
   */
  function LastMonthEnd(now: Date): (endDate: Date)
    requires Valid(now)
    ensures Valid(endDate)
    ensures var previous := MonthStart(MonthIndex(now) - 1);
      (now.day <= DaysIn(previous.year, previous.month) ==> endDate == MonthsBefore(now, 1))
      && (now.day > DaysIn(previous.year, previous.month) ==>
            MonthIndex(endDate) == MonthIndex(now) && endDate.day < now.day)
  {
    AddDate(now, -1)
  }

  /**
   * The six-month window: from the first of the month of
   * `now.AddDate(0, -6, 0)` up to the first of this month. It spans six
   * months when `now`'s day exists six months back, and five otherwise.
   */
  function TrendWindow(now: Date): (window: (Date, Date))
    requires Valid(now)
    ensures window.0.day == 1 && window.1.day == 1
    ensures MonthIndex(window.1) == MonthIndex(now)
    ensures var target := MonthStart(MonthIndex(now) - 6);
      MonthIndex(window.1) - MonthIndex(window.0)
        == if now.day <= DaysIn(target.year, target.month) then 6 else 5
  {
    (FirstDayOfMonth(AddDate(now, -6)).date, FirstDayOfMonth(now).date)
  }

  /** On August 31st, 2024 the window starts on March 1st: five months, not six. */
  lemma TrendWindowOnAugust31()
    ensures TrendWindow(Date(2024, 8, 31)) == (Date(2024, 3, 1), Date(2024, 8, 1))
    ensures MonthsBefore(Date(2024, 8, 31), 6) == Date(2024, 2, 29)
  {
    assert MonthIndex(Date(2024, 8, 31)) == 24295;
    MonthStartIn2024(1);
    MonthStartIn2024(2);
    assert IsLeap(2024) && DaysIn(2024, 2) == 29;
  }

  function PadLeft(s: string, width: nat): (r: string)
    ensures |r| == if |s| >= width then |s| else width
    ensures r[|r| - |s|..] == s
  {
    if |s| >= width then s else seq(width - |s|, _ => '0') + s
  }

  /** The `2006-01-02` layout: year at least four digits, month and day two each. */
  function FormatDate(d: Date): (s: string)
  {
    FormatYearMonth(d) + "-" + PadLeft(Numbers.NatToString(if d.day < 0 then -d.day else d.day), 2)
  }

  /** The `2006-01` prefix of that layout. */
  function FormatYearMonth(d: Date): (s: string)
  {
    var year := PadLeft(Numbers.NatToString(if d.year < 0 then -d.year else d.year), 4);
    (if d.year < 0 then "-" else "") + year + "-"
      + PadLeft(Numbers.NatToString(if d.month < 0 then -d.month else d.month), 2)
  }

  /** For years 0..9999 a formatted date is ten characters, the first seven naming its month. */
  lemma FormatDateMonthPrefix(d: Date)
    requires Valid(d) && 0 <= d.year <= 9999
    ensures |FormatDate(d)| == 10
    ensures FormatDate(d)[..7] == FormatYearMonth(d)
  {
    NatDigits(d.year, 4);
    NatDigits(d.month, 2);
    NatDigits(d.day, 2);
  }

  lemma {:induction false} NatDigits(n: nat, width: nat)
    requires n < Numbers.Pow10(width)
    ensures |Numbers.NatToString(n)| <= width || (width == 0 && n == 0)
  {
    if n >= 10 {
      NatDigits(n / 10, width - 1);
    }
  }
}
