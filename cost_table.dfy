// utils/cost_table.go: the single-account cost comparison table. The first
// row compares the two month totals; then one row per service billed this
// month, largest first, against the same service last month.
module CostTable {
  import opened Wrappers
  import Model
  import Strings
  import Numbers
  import Response

  /** A table row: the service, last month, this month and the difference; `rising` rows are drawn in red. */
  datatype Row = Row(service: string, last: string, current: string, difference: string, rising: bool)

  datatype Table = Table(lastHeader: string, currentHeader: string, rows: seq<Row>)

  /** orderCostServices: one line per service of the group, with non-increasing amounts. */
  method OrderCostServices(g: Model.CostGroup) returns (services: seq<Model.ServiceCost>)
    ensures Response.ListsGroup(services, g)
    ensures Response.AmountsDescending(services)
  {
    var listed, _, _ := Response.ListGroup(g);
    services := Response.SortServices(listed);
    Response.SameElements(services, listed);
  }

  /**
   * populateFirstRow: both totals' leading numbers must parse, and the
   * current total must have a unit after its first space, or the program
   * panics; the difference is current minus last in the current unit.
   */
  function PopulateFirstRow(lastTotalCost: string, currentTotalCost: string): (r: Fallible<Row>)
    ensures var current, last := Strings.Split(currentTotalCost, ' '), Strings.Split(lastTotalCost, ' ');
            (r.Done? <==> Numbers.ParseFloat(current[0]).Some? && Numbers.ParseFloat(last[0]).Some? && |current| >= 2)
            && (Numbers.ParseFloat(current[0]).None? ==> r == Panic("Error parsing current month total cost"))
            && (r.Done? ==>
                  var difference := Numbers.ParseFloat(current[0]).value - Numbers.ParseFloat(last[0]).value;
                  r.value == Row("Total Costs", lastTotalCost, currentTotalCost,
                                 Numbers.FormatTotal(difference, current[1]), difference > 0.0))
  {
    var current, last := Strings.Split(currentTotalCost, ' '), Strings.Split(lastTotalCost, ' ');
    match (Numbers.ParseFloat(current[0]), Numbers.ParseFloat(last[0]))
    case (None, _) => Panic("Error parsing current month total cost")
    case (_, None) => Panic("Error parsing last month total cost")
    case (Some(currentAmount), Some(lastAmount)) =>
      var difference := currentAmount - lastAmount;
      if |current| < 2 then Panic("runtime error: index out of range [1] with length 1")
      else Done(Row("Total Costs", lastTotalCost, currentTotalCost, Numbers.FormatTotal(difference, current[1]),
                    difference > 0.0))
  }

  /**
   * Totals as the cost services print them ("%.2f <unit>", a unit without
   * spaces) never make the first row panic, and its difference is that of the
   * two totals rounded to the cent.
   */
  lemma FirstRowOfFormattedTotals(last: real, current: real, unit: string, lastUnit: string)
    requires unit != [] && ' ' !in unit && ' ' !in lastUnit
    ensures var r := PopulateFirstRow(Numbers.FormatTotal(last, lastUnit), Numbers.FormatTotal(current, unit));
            r.Done?
            && r.value.difference
               == Numbers.FormatTotal(Numbers.Cents(current) as real / 100.0 - Numbers.Cents(last) as real / 100.0, unit)
            && (r.value.rising <==> Numbers.Cents(current) > Numbers.Cents(last))
  {
    SplitFormattedTotal(current, unit);
    SplitFormattedTotal(last, lastUnit);
    Numbers.FormatFixed2Parses(current);
    Numbers.FormatFixed2Parses(last);
  }

  lemma SplitFormattedTotal(amount: real, unit: string)
    requires ' ' !in unit
    ensures Strings.Split(Numbers.FormatTotal(amount, unit), ' ') == [Numbers.FormatFixed2(amount), unit]
  {
    Response.FormattedAmountIsWord(amount);
    Response.SplitWords(Numbers.FormatFixed2(amount), ' ', unit, {' '});
    Response.NoSeparator(unit, {' '});
  }

  /** A service's entry last month, as a Go map lookup: the zero entry (0, "") when it was not billed. */
  function LastMonthEntry(lastMonth: Model.CostGroup, name: string): (e: Model.CostEntry)
    ensures name in lastMonth ==> e == lastMonth[name]
    ensures name !in lastMonth ==> e == Model.CostEntry(0.0, "")
  {
    if name in lastMonth then lastMonth[name] else Model.CostEntry(0.0, "")
  }

  /**
   * populateRow: the service against its last-month entry; the difference is
   * current minus last, in the current unit, and the row is red when it grew.
   */
  function PopulateRow(lastMonth: Model.CostGroup, service: Model.ServiceCost): (r: Row)
    ensures r.service == service.name
    ensures r.current == Numbers.FormatTotal(service.amount, service.unit)
    ensures r.last == Numbers.FormatTotal(LastMonthEntry(lastMonth, service.name).amount,
                                          LastMonthEntry(lastMonth, service.name).unit)
    ensures r.difference == Numbers.FormatTotal(service.amount - LastMonthEntry(lastMonth, service.name).amount, service.unit)
    ensures r.rising <==> service.amount > LastMonthEntry(lastMonth, service.name).amount
  {
    var last := LastMonthEntry(lastMonth, service.name);
    var difference := service.amount - last.amount;
    Row(service.name, Numbers.FormatTotal(last.amount, last.unit), Numbers.FormatTotal(service.amount, service.unit),
        Numbers.FormatTotal(difference, service.unit), difference > 0.0)
  }

  /** The rows below the total: the current month's services in order, each against last month. */
  ghost predicate ServiceRows(rows: seq<Row>, lastMonth: Model.CostGroup, currentMonth: Model.CostGroup)
  {
    |rows| == |currentMonth|
    && (forall i :: 0 <= i < |rows| ==>
          rows[i].service in currentMonth
          && rows[i] == PopulateRow(lastMonth, Model.ServiceCost(rows[i].service, currentMonth[rows[i].service].amount,
                                                                   currentMonth[rows[i].service].unit)))
    && (forall k :: k in currentMonth ==> exists i :: 0 <= i < |rows| && rows[i].service == k)
    && (forall i, j :: 0 <= i < j < |rows| ==>
          currentMonth[rows[i].service].amount >= currentMonth[rows[j].service].amount)
  }

  /**
   * DrawCostTable, without the drawing: the period headers (whose dates must
   * all be present), the total row, then one row per service billed this
   * month, largest first.
   */
  method DrawCostTable(lastTotalCost: string, currentTotalCost: string, lastMonth: Model.CostInfo,
                       currentMonth: Model.CostInfo) returns (table: Fallible<Table>)
    ensures table.Done? <==>
      currentMonth.start.Some? && currentMonth.end.Some? && lastMonth.start.Some? && lastMonth.end.Some?
      && PopulateFirstRow(lastTotalCost, currentTotalCost).Done?
    ensures table.Done? ==>
      && |table.value.rows| >= 1
      && table.value.rows[0] == PopulateFirstRow(lastTotalCost, currentTotalCost).value
      && ServiceRows(table.value.rows[1..], lastMonth.group, currentMonth.group)
      && table.value.currentHeader == "Current Month\n(" + currentMonth.start.value + "\n" + currentMonth.end.value + ")"
      && table.value.lastHeader == "Last Month\n(" + lastMonth.start.value + "\n" + lastMonth.end.value + ")"
  {
    if currentMonth.start.None? || currentMonth.end.None? || lastMonth.start.None? || lastMonth.end.None? {
      return Panic(NilDereference);
    }
    var currentHeader := "Current Month\n(" + currentMonth.start.value + "\n" + currentMonth.end.value + ")";
    var lastHeader := "Last Month\n(" + lastMonth.start.value + "\n" + lastMonth.end.value + ")";
    var first := PopulateFirstRow(lastTotalCost, currentTotalCost);
    if first.Panic? {
      return Panic(first.message);
    }
    var services := OrderCostServices(currentMonth.group);
    var rows := [];
    for i := 0 to |services|
      invariant |rows| == i
      invariant forall k :: 0 <= k < i ==> rows[k] == PopulateRow(lastMonth.group, services[k])
    {
      rows := rows + [PopulateRow(lastMonth.group, services[i])];
    }
    ListedRows(rows, services, lastMonth.group, currentMonth.group);
    table := Done(Table(lastHeader, currentHeader, [first.value] + rows));
    assert table.value.rows[1..] == rows;
  }

  lemma ListedRows(rows: seq<Row>, services: seq<Model.ServiceCost>, lastMonth: Model.CostGroup, currentMonth: Model.CostGroup)
    requires Response.ListsGroup(services, currentMonth)
    requires Response.AmountsDescending(services)
    requires |rows| == |services|
    requires forall k :: 0 <= k < |rows| ==> rows[k] == PopulateRow(lastMonth, services[k])
    ensures ServiceRows(rows, lastMonth, currentMonth)
  {
    forall i | 0 <= i < |services|
      ensures services[i].name in currentMonth
      ensures services[i] == Model.ServiceCost(services[i].name, currentMonth[services[i].name].amount,
                                               currentMonth[services[i].name].unit)
    {
      assert services[i] in Response.Elements(services);
    }
    forall k | k in currentMonth ensures exists i :: 0 <= i < |rows| && rows[i].service == k {
      var entry := Model.ServiceCost(k, currentMonth[k].amount, currentMonth[k].unit);
      assert entry in Response.Entries(currentMonth, currentMonth.Keys);
      assert entry in Response.Elements(services);
      var i :| 0 <= i < |services| && services[i] == entry;
      assert rows[i].service == k;
    }
  }
}
