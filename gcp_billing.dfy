// service/gcp/billing/service.go: the BigQuery billing export turned into the
// shared cost model. A query is an abstract answer: the error of q.Read, or
// the rows the iterator yields, one of which may be a read error. The end of
// the sequence is iterator.Done. The SQL text is not modelled; its query
// windows are Calendar.MonthPeriod of the end date (now, or
// Calendar.LastMonthEnd for last month) and Calendar.TrendWindow, both built
// with AddDate as the code builds them.
module GcpBilling {
  import opened Wrappers
  import Model
  import Calendar
  import Strings
  import Sums
  import Numbers
  import Response
  import opened Reads

  const AccountPrefix := "billingAccounts/"

  /** A row of the by-service query. */
  datatype ServiceRow = ServiceRow(serviceName: string, totalCost: real, currency: string)

  /** A row of the month-total query. */
  datatype TotalRow = TotalRow(totalCost: real, currency: string)

  /** A row of the six-month query: the month's bounds as BigQuery formats them. */
  datatype MonthRow = MonthRow(monthStart: string, monthEnd: string, totalCost: real, currency: string)

  /** What a query gives back: the error of q.Read, or what the row iterator yields. */
  type Answer<R> = Outcome<seq<Read<R>>>

  /**
   * The suffix of the billing export table: every "billingAccounts/" removed,
   * then every '-' replaced by '_'.
   */
  function TableSuffix(billingAccount: string): (suffix: string)
    ensures '-' !in suffix
  {
    var id := Strings.ReplaceAll(billingAccount, AccountPrefix, "");
    Strings.ReplaceCharAt(id, '-', '_');
    Strings.ReplaceAll(id, "-", "_")
  }

  /** Text without a '/' holds no "billingAccounts/", so removing it changes nothing. */
  lemma {:induction false} NoPrefixToRemove(s: string)
    requires '/' !in s
    ensures Strings.ReplaceAll(s, AccountPrefix, "") == s
  {
    if s != [] {
      if |s| >= |AccountPrefix| {
        assert s[15] in s;
        assert s[..|AccountPrefix|][15] != AccountPrefix[15];
      }
      NoPrefixToRemove(s[1..]);
      assert [s[0]] + s[1..] == s;
    }
  }

  /**
   * An account given as "billingAccounts/ID" or as the bare ID, with no '/'
   * in ID, names the same table: ID with each '-' turned into '_'.
   */
  lemma TableSuffixOfAccount(id: string)
    requires '/' !in id
    ensures TableSuffix(AccountPrefix + id) == TableSuffix(id)
    ensures |TableSuffix(id)| == |id|
    ensures forall i :: 0 <= i < |id| ==> TableSuffix(id)[i] == (if id[i] == '-' then '_' else id[i])
  {
    NoPrefixToRemove(id);
    assert Strings.HasPrefix(AccountPrefix + id, AccountPrefix);
    assert (AccountPrefix + id)[|AccountPrefix|..] == id;
    assert Strings.ReplaceAll(AccountPrefix + id, AccountPrefix, "") == id;
    Strings.ReplaceCharAt(id, '-', '_');
  }

  // ---------------------------------------------------------------- by service

  function EntryOf(row: ServiceRow): Model.CostEntry
  {
    Model.CostEntry(row.totalCost, row.currency)
  }

  /** The by-service map: each row stored under its service name, a later row overwriting. */
  function ByService(rows: seq<ServiceRow>): Model.CostGroup
  {
    if rows == [] then map[]
    else
      var last := rows[|rows| - 1];
      ByService(rows[..|rows| - 1])[last.serviceName := EntryOf(last)]
  }

  /** The services listed are exactly those with a row. */
  lemma {:induction false} ByServiceKeys(rows: seq<ServiceRow>, name: string)
    ensures name in ByService(rows) <==> exists i :: 0 <= i < |rows| && rows[i].serviceName == name
  {
    if rows != [] {
      var init, n := rows[..|rows| - 1], |rows| - 1;
      ByServiceKeys(init, name);
      if name in ByService(init) {
        var i :| 0 <= i < |init| && init[i].serviceName == name;
        assert rows[i].serviceName == name;
      }
      if exists i :: 0 <= i < |rows| && rows[i].serviceName == name {
        var i :| 0 <= i < |rows| && rows[i].serviceName == name;
        if i < n {
          assert init[i].serviceName == name;
        }
      }
    }
  }

  /** A service named by several rows keeps the last of them. */
  lemma {:induction false} LastRowWins(rows: seq<ServiceRow>, i: nat)
    requires i < |rows|
    requires forall j :: i < j < |rows| ==> rows[j].serviceName != rows[i].serviceName
    ensures rows[i].serviceName in ByService(rows)
    ensures ByService(rows)[rows[i].serviceName] == EntryOf(rows[i])
  {
    if i < |rows| - 1 {
      var init := rows[..|rows| - 1];
      assert init[i] == rows[i];
      LastRowWins(init, i);
    }
  }

  /**
   * getMonthCostsByService: the period from the first of endDate's month to
   * endDate, and every row's cost under its service name; a failed query or
   * row read is an error, never a partial map.
   */
  method MonthCostsByService(endDate: Calendar.Date, answer: Answer<ServiceRow>) returns (r: Outcome<Model.CostInfo>)
    requires Calendar.Valid(endDate)
    ensures answer.Failure? ==> r == Failure("failed to execute BigQuery query: " + answer.error)
    ensures answer.Success? && FirstReadError(answer.value).Some? ==>
      r == Failure("failed to read BigQuery row: " + FirstReadError(answer.value).value)
    ensures answer.Success? && FirstReadError(answer.value).None? ==>
      r == Success(Model.CostInfo(Some(Calendar.FormatDate(Calendar.MonthPeriod(endDate).0)),
                                  Some(Calendar.FormatDate(endDate)), ByService(Items(answer.value))))
  {
    var startDate := Calendar.FirstDayOfMonth(endDate);
    var startDateStr := Calendar.FormatDate(startDate.date);
    var endDateStr := Calendar.FormatDate(endDate);
    if answer.Failure? {
      return Failure("failed to execute BigQuery query: " + answer.error);
    }
    var costGroups, err := ServiceRows(answer.value);
    if err.Some? {
      return Failure("failed to read BigQuery row: " + err.value);
    }
    return Success(Model.CostInfo(Some(startDateStr), Some(endDateStr), costGroups));
  }

  /** The by-service row loop: the map of the rows read, or the first read error. */
  method ServiceRows(yielded: seq<Read<ServiceRow>>) returns (costGroups: Model.CostGroup, err: Option<string>)
    ensures err == FirstReadError(yielded)
    ensures err.None? ==> costGroups == ByService(Items(yielded))
  {
    costGroups := map[];
    for i := 0 to |yielded|
      invariant FirstReadError(yielded[..i]).None?
      invariant costGroups == ByService(Items(yielded[..i]))
    {
      match yielded[i]
      case ReadError(e) =>
        ErrorStep(yielded, i);
        return costGroups, Some(e);
      case Item(row) =>
        ItemStep(yielded, i);
        costGroups := costGroups[row.serviceName := EntryOf(row)];
    }
    assert yielded[..|yielded|] == yielded;
    err := None;
  }

  // ---------------------------------------------------------------- month total

  function RowCost(row: TotalRow): real { row.totalCost }

  /** The currency of the last row, or "" when there is none. */
  function LastCurrency(rows: seq<TotalRow>): string
  {
    if rows == [] then "" else rows[|rows| - 1].currency
  }

  /**
   * getMonthTotalCosts: the sum of all rows' costs and the last row's
   * currency, printed "%.2f %s"; a failed query or row read is an error.
   */
  method MonthTotalCosts(answer: Answer<TotalRow>) returns (r: Outcome<string>)
    ensures answer.Failure? ==> r == Failure("failed to execute BigQuery query: " + answer.error)
    ensures answer.Success? && FirstReadError(answer.value).Some? ==>
      r == Failure("failed to read BigQuery row: " + FirstReadError(answer.value).value)
    ensures answer.Success? && FirstReadError(answer.value).None? ==>
      var rows := Items(answer.value);
      r == Success(Numbers.FormatTotal(Sums.Sum(rows, RowCost), LastCurrency(rows)))
  {
    if answer.Failure? {
      return Failure("failed to execute BigQuery query: " + answer.error);
    }
    var totalCost, currency, err := TotalRows(answer.value);
    if err.Some? {
      return Failure("failed to read BigQuery row: " + err.value);
    }
    return Success(Numbers.FormatTotal(totalCost, currency));
  }

  /** The month-total row loop: the running sum and the last currency, or the first read error. */
  method TotalRows(yielded: seq<Read<TotalRow>>) returns (totalCost: real, currency: string, err: Option<string>)
    ensures err == FirstReadError(yielded)
    ensures err.None? ==> totalCost == Sums.Sum(Items(yielded), RowCost) && currency == LastCurrency(Items(yielded))
  {
    totalCost, currency := 0.0, "";
    ghost var rows: seq<TotalRow> := [];
    for i := 0 to |yielded|
      invariant FirstReadError(yielded[..i]).None?
      invariant rows == Items(yielded[..i])
      invariant totalCost == Sums.Sum(rows, RowCost) && currency == LastCurrency(rows)
    {
      match yielded[i]
      case ReadError(e) =>
        ErrorStep(yielded, i);
        return totalCost, currency, Some(e);
      case Item(row) =>
        ItemStep(yielded, i);
        Sums.SumAppend(rows, row, RowCost);
        rows := rows + [row];
        totalCost := totalCost + row.totalCost;
        currency := row.currency;
    }
    assert yielded[..|yielded|] == yielded;
    err := None;
  }

  /** With no rows the total is "0.00 ", with an empty currency. */
  lemma NoRowsTotal()
    ensures Numbers.FormatTotal(Sums.Sum([], RowCost), LastCurrency([])) == "0.00 "
  {
    assert Sums.Sum([], RowCost) == 0.0 && LastCurrency([]) == "";
    assert Numbers.Abs(0.0) * 100.0 == 0.0;
    assert Numbers.RoundHalfEven(0.0) == 0;
    assert Numbers.NatToString(0) == "0";
    assert Numbers.CentsText(0) == "0.00";
  }

  /** That total reads back as zero US dollars. */
  lemma NoRowsTotalReadsBack()
    ensures Response.ParseTotalCostString(Numbers.FormatTotal(Sums.Sum([], RowCost), LastCurrency([]))) == (0.0, "USD")
  {
    var total, unit := Sums.Sum([], RowCost), LastCurrency([]);
    assert total == 0.0 && unit == "";
    Response.ParseFormattedTotal(total, unit);
    assert Numbers.Cents(total) == 0;
  }

  /** The summed amount does not depend on the order of the rows; only the currency does. */
  lemma TotalIgnoresRowOrder(a: seq<TotalRow>, b: seq<TotalRow>)
    requires multiset(a) == multiset(b)
    ensures Sums.Sum(a, RowCost) == Sums.Sum(b, RowCost)
  {
    Sums.SumPermutation(a, b, RowCost);
  }

  // ---------------------------------------------------------------- six months

  /** The record of one month row: its bounds as given, and its cost as the only key "Total". */
  predicate IsMonthRecord(month: Model.CostInfo, row: MonthRow)
  {
    && month.start == Some(row.monthStart) && month.end == Some(row.monthEnd)
    && month.group.Keys == {"Total"}
    && month.group["Total"] == Model.CostEntry(row.totalCost, row.currency)
  }

  /**
   * GetLastSixMonthsCosts: one record per row, in the order of the rows; a
   * failed query or row read is an error.
   */
  method LastSixMonthsCosts(answer: Answer<MonthRow>) returns (r: Outcome<seq<Model.CostInfo>>)
    ensures answer.Failure? ==> r == Failure("failed to execute BigQuery query: " + answer.error)
    ensures answer.Success? && FirstReadError(answer.value).Some? ==>
      r == Failure("failed to read BigQuery row: " + FirstReadError(answer.value).value)
    ensures answer.Success? && FirstReadError(answer.value).None? ==>
      r.Success? && |r.value| == |answer.value|
      && forall i :: 0 <= i < |answer.value| ==> IsMonthRecord(r.value[i], answer.value[i].value)
  {
    if answer.Failure? {
      return Failure("failed to execute BigQuery query: " + answer.error);
    }
    var yielded := answer.value;
    var monthlyCosts: seq<Model.CostInfo> := [];
    for i := 0 to |yielded|
      invariant FirstReadError(yielded[..i]).None?
      invariant |monthlyCosts| == i
      invariant forall j :: 0 <= j < i ==> IsMonthRecord(monthlyCosts[j], yielded[j].value)
    {
      match yielded[i]
      case ReadError(e) =>
        ErrorStep(yielded, i);
        return Failure("failed to read BigQuery row: " + e);
      case Item(row) =>
        ItemStep(yielded, i);
        var costGroups := map["Total" := Model.CostEntry(row.totalCost, row.currency)];
        monthlyCosts := monthlyCosts + [Model.CostInfo(Some(row.monthStart), Some(row.monthEnd), costGroups)];
    }
    assert yielded[..|yielded|] == yielded;
    return Success(monthlyCosts);
  }
}
