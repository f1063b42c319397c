// service/azure/costmanagement/service.go: Cost Management query answers
// turned into the shared cost model. A query answer is abstract: the rows of
// cells the Usage call returns (absent when the response has no properties or
// no rows), or the call's error.
module AzureCostManagement {
  import opened Wrappers
  import Model
  import Numbers
  import Calendar
  import Response

  /** A cell of a query row: a JSON number, a string, or anything else. */
  datatype Cell = Number(value: real) | Text(text: string) | OtherCell

  type Row = seq<Cell>

  /** What one Usage call answers: the rows, absent when the response carries none. */
  type Answer = Outcome<Option<seq<Row>>>

  function RowsOf(rows: Option<seq<Row>>): seq<Row>
  {
    if rows.Some? then rows.value else []
  }

  /**
   * A by-service row the loop uses: at least two cells, a number then a
   * string, and a strictly positive cost.
   */
  function Billed(row: Row): (r: Option<(string, real)>)
    ensures r.Some? <==> |row| >= 2 && row[0].Number? && row[1].Text? && row[0].value > 0.0
    ensures r.Some? ==> r.value == (row[1].text, row[0].value)
  {
    if |row| < 2 then None
    else if !row[0].Number? then None
    else if !row[1].Text? then None
    else if row[0].value > 0.0 then Some((row[1].text, row[0].value))
    else None
  }

  /** The cost a row adds to one service: its cost when it bills that service, 0 otherwise. */
  function CostFor(row: Row, name: string): real
  {
    var b := Billed(row);
    if b.Some? && b.value.0 == name then b.value.1 else 0.0
  }

  /** The sum over the rows of what each adds to `name`. */
  function ServiceSum(rows: seq<Row>, name: string): real
  {
    if rows == [] then 0.0 else ServiceSum(rows[..|rows| - 1], name) + CostFor(rows[|rows| - 1], name)
  }

  /** The by-service loop over the first `rows`: each usable row adds its cost under its service name. */
  function ServiceTotals(rows: seq<Row>): (g: Model.CostGroup)
    ensures forall k :: k in g ==> g[k].amount > 0.0 && g[k].unit == "USD"
  {
    if rows == [] then map[]
    else
      var g := ServiceTotals(rows[..|rows| - 1]);
      match Billed(rows[|rows| - 1])
      case None => g
      case Some((name, cost)) =>
        var existing := if name in g then g[name] else Model.CostEntry(0.0, "");
        g[name := Model.CostEntry(existing.amount + cost, "USD")]
  }

  /** A row bills `name`. */
  predicate BillsFor(row: Row, name: string)
  {
    Billed(row).Some? && Billed(row).value.0 == name
  }

  /**
   * A service appears iff some usable row bills it, and then its amount is the
   * sum of its rows' costs; for any other name the rows add up to nothing.
   */
  lemma {:induction false} ServiceTotalIsSum(rows: seq<Row>, name: string)
    ensures name in ServiceTotals(rows) <==> exists i :: 0 <= i < |rows| && BillsFor(rows[i], name)
    ensures name in ServiceTotals(rows) ==> ServiceTotals(rows)[name] == Model.CostEntry(ServiceSum(rows, name), "USD")
    ensures name !in ServiceTotals(rows) ==> ServiceSum(rows, name) == 0.0
  {
    if rows != [] {
      var init := rows[..|rows| - 1];
      ServiceTotalIsSum(init, name);
      assert forall i :: 0 <= i < |init| ==> init[i] == rows[i];
      if exists i :: 0 <= i < |rows| && BillsFor(rows[i], name) {
        var i :| 0 <= i < |rows| && BillsFor(rows[i], name);
        if i < |init| {
          assert BillsFor(init[i], name);
        }
      }
    }
  }

  /** One row of the by-service loop, on the map built so far. */
  method AddServiceRow(costGroups: Model.CostGroup, row: Row) returns (costGroups': Model.CostGroup)
    ensures Billed(row).None? ==> costGroups' == costGroups
    ensures Billed(row).Some? ==>
      var (name, cost) := Billed(row).value;
      costGroups' == costGroups[name := Model.CostEntry((if name in costGroups then costGroups[name].amount else 0.0) + cost, "USD")]
  {
    costGroups' := costGroups;
    if |row| >= 2 {
      if !row[0].Number? {
        return;
      }
      var cost := row[0].value;
      if !row[1].Text? {
        return;
      }
      var serviceName := row[1].text;
      if cost > 0.0 {
        var existing := if serviceName in costGroups then costGroups[serviceName] else Model.CostEntry(0.0, "");
        costGroups' := costGroups[serviceName := Model.CostEntry(existing.amount + cost, "USD")];
      }
    }
  }

  /**
   * getMonthCostsByService: from the first of endDate's month to endDate,
   * every service with positive daily costs, summed over the days.
   */
  method MonthCostsByService(endDate: Calendar.Date, answer: Answer) returns (r: Outcome<Model.CostInfo>)
    requires Calendar.Valid(endDate)
    ensures answer.Failure? ==> r == Failure("failed to query costs: " + answer.error)
    ensures answer.Success? ==>
      r == Success(Model.CostInfo(Some(Calendar.FormatDate(Calendar.FirstDayOfMonth(endDate).date)),
                                  Some(Calendar.FormatDate(endDate)), ServiceTotals(RowsOf(answer.value))))
  {
    var startDate := Calendar.FirstDayOfMonth(endDate);
    var startDateStr := Calendar.FormatDate(startDate.date);
    var endDateStr := Calendar.FormatDate(endDate);
    if answer.Failure? {
      return Failure("failed to query costs: " + answer.error);
    }
    var costGroups := SumServices(RowsOf(answer.value));
    return Success(Model.CostInfo(Some(startDateStr), Some(endDateStr), costGroups));
  }

  /** The by-service loop of getMonthCostsByService. */
  method SumServices(rows: seq<Row>) returns (costGroups: Model.CostGroup)
    ensures costGroups == ServiceTotals(rows)
  {
    costGroups := map[];
    for i := 0 to |rows|
      invariant costGroups == ServiceTotals(rows[..i])
    {
      assert rows[..i + 1][..i] == rows[..i];
      costGroups := AddServiceRow(costGroups, rows[i]);
    }
    assert rows[..|rows|] == rows;
  }

  /** A total row's contribution: its first cell when that is a number, including zero and negative ones. */
  function FirstCost(row: Row): real
  {
    if |row| >= 1 && row[0].Number? then row[0].value else 0.0
  }

  /** The total loop over the rows: the sum of every numeric first cell. */
  function ColumnTotal(rows: seq<Row>): real
  {
    if rows == [] then 0.0 else ColumnTotal(rows[..|rows| - 1]) + FirstCost(rows[|rows| - 1])
  }

  /** The month total sums every row: a credit (negative cost) lowers it, unlike the by-service sums. */
  lemma {:induction false} ColumnTotalOfCredits(rows: seq<Row>)
    requires forall i :: 0 <= i < |rows| ==> |rows[i]| >= 1 && rows[i][0].Number? && rows[i][0].value <= 0.0
    ensures ColumnTotal(rows) <= 0.0
    ensures ServiceTotals(rows) == map[]
  {
    if rows != [] {
      var init := rows[..|rows| - 1];
      assert forall i :: 0 <= i < |init| ==> init[i] == rows[i];
      ColumnTotalOfCredits(init);
    }
  }

  /** The sum of the first cells of the rows, by the loop of the total queries. */
  method SumFirstColumn(rows: seq<Row>) returns (totalCost: real)
    ensures totalCost == ColumnTotal(rows)
  {
    totalCost := 0.0;
    for i := 0 to |rows|
      invariant totalCost == ColumnTotal(rows[..i])
    {
      assert rows[..i + 1][..i] == rows[..i];
      var row := rows[i];
      if |row| >= 1 {
        if row[0].Number? {
          totalCost := totalCost + row[0].value;
        }
      }
    }
    assert rows[..|rows|] == rows;
  }

  /** getMonthTotalCosts: the sum of the month's rows to two decimals, then " USD". */
  method MonthTotalCosts(answer: Answer) returns (r: Outcome<string>)
    ensures answer.Failure? ==> r == Failure("failed to query total costs: " + answer.error)
    ensures answer.Success? ==> r == Success(Numbers.FormatTotal(ColumnTotal(RowsOf(answer.value)), "USD"))
  {
    if answer.Failure? {
      return Failure("failed to query total costs: " + answer.error);
    }
    var totalCost := SumFirstColumn(RowsOf(answer.value));
    return Success(Numbers.FormatTotal(totalCost, "USD"));
  }

  /** A month total reads back as the rows' sum to the cent, in USD. */
  lemma MonthTotalReadsBack(total: real)
    ensures Response.ParseTotalCostString(Numbers.FormatTotal(total, "USD")) == (Numbers.Cents(total) as real / 100.0, "USD")
  {
    assert forall c :: c in "USD" ==> c == 'U' || c == 'S' || c == 'D';
    Response.ParseFormattedTotal(total, "USD");
  }

  /** getLastDayOfMonth: the last second (23:59:59) of the month's last day. */
  function LastMomentOfMonth(d: Calendar.Date): (m: Calendar.Moment)
    requires Calendar.Valid(d)
    ensures m.date == Calendar.LastDayOfMonth(d)
    ensures m.second == 24 * 60 * 60 - 1
  {
    Calendar.Moment(Calendar.LastDayOfMonth(d), 23 * 3600 + 59 * 60 + 59)
  }

  /**
   * The first day of the month queried `monthsAgo` months before `now`: the
   * month of `now.AddDate(0, -monthsAgo, 0)`. That is the month `monthsAgo`
   * back when `now`'s day exists there, and the month after it otherwise.
   */
  function TrendMonth(now: Calendar.Date, monthsAgo: nat): (d: Calendar.Date)
    requires Calendar.Valid(now)
    ensures Calendar.Valid(d) && d.day == 1
    ensures var target := Calendar.MonthStart(Calendar.MonthIndex(now) - monthsAgo);
      Calendar.MonthIndex(d) == Calendar.MonthIndex(now) - monthsAgo
        + (if now.day <= Calendar.DaysIn(target.year, target.month) then 0 else 1)
  {
    Calendar.FirstDayOfMonth(Calendar.AddDate(now, -(monthsAgo as int))).date
  }

  /**
   * The month the loop evidently means to query: exactly `monthsAgo` months
   * back, so that the six queries cover six distinct consecutive months.
   */
  function IntendedTrendMonth(now: Calendar.Date, monthsAgo: nat): (d: Calendar.Date)
    requires Calendar.Valid(now)
    ensures Calendar.Valid(d) && d.day == 1
    ensures Calendar.MonthIndex(d) == Calendar.MonthIndex(now) - monthsAgo
    ensures forall k: nat :: k < monthsAgo ==>
      Calendar.MonthIndex(IntendedTrendMonth(now, k)) - Calendar.MonthIndex(d) == monthsAgo - k
  {
    Calendar.FirstDayOfMonth(Calendar.MonthsBefore(now, monthsAgo)).date
  }

  /** The queried month is the intended one exactly when `now`'s day exists in the intended month. */
  lemma TrendMonthOfMonthsBefore(now: Calendar.Date, monthsAgo: nat)
    requires Calendar.Valid(now)
    ensures var target := Calendar.MonthStart(Calendar.MonthIndex(now) - monthsAgo);
      (TrendMonth(now, monthsAgo) == IntendedTrendMonth(now, monthsAgo))
        <==> now.day <= Calendar.DaysIn(target.year, target.month)
  {
    var target := Calendar.MonthStart(Calendar.MonthIndex(now) - monthsAgo);
    if now.day > Calendar.DaysIn(target.year, target.month) {
      assert Calendar.MonthIndex(TrendMonth(now, monthsAgo)) != Calendar.MonthIndex(IntendedTrendMonth(now, monthsAgo));
    }
  }

  /** On December 31st, 2024 the six queries ask for July, July, August, October, October and December. */
  lemma TrendMonthsOnDecember31()
    ensures var now := Calendar.Date(2024, 12, 31);
      && TrendMonth(now, 6) == Calendar.Date(2024, 7, 1) && TrendMonth(now, 5) == Calendar.Date(2024, 7, 1)
      && TrendMonth(now, 4) == Calendar.Date(2024, 8, 1) && TrendMonth(now, 3) == Calendar.Date(2024, 10, 1)
      && TrendMonth(now, 2) == Calendar.Date(2024, 10, 1) && TrendMonth(now, 1) == Calendar.Date(2024, 12, 1)
  {
    Calendar.AddDateBackFromDecember31();
  }

  /**
   * The record of one answered month: its first and last day, and a group
   * whose only key is "Total", holding the month's summed rows in USD.
   */
  predicate IsTrendRecord(month: Model.CostInfo, now: Calendar.Date, monthsAgo: nat, rows: seq<Row>)
  {
    && Calendar.Valid(now)
    && var monthDate := TrendMonth(now, monthsAgo);
    && month.start == Some(Calendar.FormatDate(monthDate))
    && month.end == Some(Calendar.FormatDate(Calendar.LastDayOfMonth(monthDate)))
    && |month.group| == 1 && "Total" in month.group
    && month.group["Total"] == Model.CostEntry(ColumnTotal(rows), "USD")
  }

  /** The rows of the query for the month `monthsAgo` months back: answers[6 - monthsAgo], oldest first. */
  function RowsAt(answers: seq<Answer>, monthsAgo: nat): seq<Row>
    requires |answers| == 6
  {
    if 1 <= monthsAgo <= 6 && answers[6 - monthsAgo].Success? then RowsOf(answers[6 - monthsAgo].value) else []
  }

  /**
   * The months (counted back from now) among the first `n` queries that were
   * answered, oldest first: answers[k] is the answer for the month 6 - k
   * months ago, and a failed query contributes nothing.
   */
  function AnsweredMonths(answers: seq<Answer>, n: nat): (months: seq<nat>)
    requires |answers| == 6 && n <= 6
    ensures |months| <= n
    ensures forall j :: 0 <= j < |months| ==> 6 - n < months[j] <= 6 && answers[6 - months[j]].Success?
  {
    if n == 0 then []
    else
      var earlier := AnsweredMonths(answers, n - 1);
      if answers[n - 1].Failure? then earlier else earlier + [6 - (n - 1)]
  }

  /** How many of the first `n` queries succeeded. */
  function Answered(answers: seq<Answer>, n: nat): nat
    requires n <= |answers|
  {
    if n == 0 then 0 else Answered(answers, n - 1) + (if answers[n - 1].Success? then 1 else 0)
  }

  /** One record per successful query, so a failed month is skipped rather than recorded as zero. */
  lemma {:induction false} OneRecordPerAnsweredMonth(answers: seq<Answer>, n: nat)
    requires |answers| == 6 && n <= 6
    ensures |AnsweredMonths(answers, n)| == Answered(answers, n)
  {
    if n > 0 {
      OneRecordPerAnsweredMonth(answers, n - 1);
    }
  }

  /** The answered months are distinct and oldest first: the months-ago count strictly falls. */
  lemma {:induction false} AnsweredMonthsOldestFirst(answers: seq<Answer>, n: nat)
    requires |answers| == 6 && n <= 6
    ensures forall i, j :: 0 <= i < j < |AnsweredMonths(answers, n)| ==>
      AnsweredMonths(answers, n)[i] > AnsweredMonths(answers, n)[j]
  {
    if n > 0 {
      AnsweredMonthsOldestFirst(answers, n - 1);
    }
  }

  /** When every query succeeds, the k-th month is the one 6 - k months ago. */
  lemma {:induction false} AllMonthsAnswered(answers: seq<Answer>, n: nat)
    requires |answers| == 6 && n <= 6
    requires forall k :: 0 <= k < n ==> answers[k].Success?
    ensures |AnsweredMonths(answers, n)| == n
    ensures forall k :: 0 <= k < n ==> AnsweredMonths(answers, n)[k] == 6 - k
  {
    if n > 0 {
      AllMonthsAnswered(answers, n - 1);
    }
  }

  /** The records of the given months, in their order, each with its own query's rows. */
  ghost predicate RecordsOf(now: Calendar.Date, answers: seq<Answer>, monthlyCosts: seq<Model.CostInfo>, months: seq<nat>)
    requires |answers| == 6
  {
    |monthlyCosts| == |months|
    && forall j :: 0 <= j < |months| ==> IsTrendRecord(monthlyCosts[j], now, months[j], RowsAt(answers, months[j]))
  }

  /** One answered month of the six-month loop: the month's bounds and its summed rows. */
  method MonthRecord(now: Calendar.Date, monthsAgo: nat, rows: seq<Row>) returns (month: Model.CostInfo)
    requires Calendar.Valid(now)
    ensures IsTrendRecord(month, now, monthsAgo, rows)
  {
    var monthDate := Calendar.AddDate(now, -(monthsAgo as int));
    var startDate := Calendar.FirstDayOfMonth(monthDate);
    var endDate := LastMomentOfMonth(startDate.date);
    var totalCost := SumFirstColumn(rows);
    var startDateStr := Calendar.FormatDate(startDate.date);
    var endDateStr := Calendar.FormatDate(endDate.date);
    var costGroups := map["Total" := Model.CostEntry(totalCost, "USD")];
    month := Model.CostInfo(Some(startDateStr), Some(endDateStr), costGroups);
  }

  /**
   * GetLastSixMonthsCosts: queries the months 6 down to 1 months ago, oldest
   * first, summing each month's rows; a month whose query fails is skipped.
   */
  method LastSixMonthsCosts(now: Calendar.Date, answers: seq<Answer>) returns (monthlyCosts: seq<Model.CostInfo>)
    requires Calendar.Valid(now) && |answers| == 6
    ensures RecordsOf(now, answers, monthlyCosts, AnsweredMonths(answers, 6))
  {
    monthlyCosts := [];
    var i := 6;
    ghost var asked := 0;
    while i >= 1
      invariant 0 <= i <= 6 && asked == 6 - i
      invariant RecordsOf(now, answers, monthlyCosts, AnsweredMonths(answers, asked))
    {
      monthlyCosts := QueryMonth(now, answers, i, asked, monthlyCosts);
      i := i - 1;
      asked := asked + 1;
    }
    assert asked == 6;
  }

  /** One pass of the six-month loop: the month `i` months back is appended when its query succeeded. */
  method QueryMonth(now: Calendar.Date, answers: seq<Answer>, i: nat, ghost asked: nat, monthlyCosts: seq<Model.CostInfo>)
    returns (monthlyCosts': seq<Model.CostInfo>)
    requires Calendar.Valid(now) && |answers| == 6 && 1 <= i <= 6 && asked == 6 - i
    requires RecordsOf(now, answers, monthlyCosts, AnsweredMonths(answers, asked))
    ensures RecordsOf(now, answers, monthlyCosts', AnsweredMonths(answers, asked + 1))
  {
    var answer := answers[6 - i];
    ghost var answered := AnsweredMonths(answers, asked);
    AnsweredStep(answers, asked);
    if answer.Failure? {
      return monthlyCosts;
    }
    var rows := RowsOf(answer.value);
    var month := MonthRecord(now, i, rows);
    RecordsExtend(now, answers, monthlyCosts, answered, i, rows, month);
    monthlyCosts' := monthlyCosts + [month];
  }

  /** One more query adds its month exactly when it was answered. */
  lemma AnsweredStep(answers: seq<Answer>, n: nat)
    requires |answers| == 6 && n < 6
    ensures AnsweredMonths(answers, n + 1)
      == AnsweredMonths(answers, n) + (if answers[n].Success? then [6 - n] else [])
  {
  }

  lemma RecordsExtend(now: Calendar.Date, answers: seq<Answer>, monthlyCosts: seq<Model.CostInfo>, months: seq<nat>,
                      monthsAgo: nat, rows: seq<Row>, month: Model.CostInfo)
    requires |answers| == 6 && rows == RowsAt(answers, monthsAgo)
    requires RecordsOf(now, answers, monthlyCosts, months)
    requires IsTrendRecord(month, now, monthsAgo, rows)
    ensures RecordsOf(now, answers, monthlyCosts + [month], months + [monthsAgo])
  {
    var monthlyCosts', months' := monthlyCosts + [month], months + [monthsAgo];
    forall j | 0 <= j < |months'|
      ensures IsTrendRecord(monthlyCosts'[j], now, months'[j], RowsAt(answers, months'[j]))
    {
      if j < |months| {
        assert monthlyCosts'[j] == monthlyCosts[j] && months'[j] == months[j];
      } else {
        assert monthlyCosts'[j] == month && months'[j] == monthsAgo;
      }
    }
  }

}
