// The multi-provider CLI reports (utils/multicloud.go): the cost and waste
// summary tables with their TOTAL rows, the per-provider sections that follow
// them, and the fixed aws < gcp < azure display order. Colours and table
// styling are not modelled; each table is the data its rows show.
module MultiCloudTables {
  import opened Wrappers
  import Model
  import Strings
  import Numbers
  import Response
  import Sorting
  import Sums

  /** parseCost: the first space-separated piece read as a number, 0 when it is not one. */
  function ParseCost(costStr: string): (cost: real)
    ensures Numbers.ParseFloat(Strings.Split(costStr, ' ')[0]).None? ==> cost == 0.0
    ensures costStr == "" ==> cost == 0.0
  {
    var parts := Strings.Split(costStr, ' ');
    Numbers.ParseOrZero(parts[0])
  }

  /** A total printed as "%.2f %s" reads back as the amount to the cent. */
  lemma ParseCostOfFormattedTotal(amount: real, unit: string)
    ensures ParseCost(Numbers.FormatTotal(amount, unit)) == Numbers.Cents(amount) as real / 100.0
  {
    Response.FormattedAmountIsWord(amount);
    var text := Numbers.FormatFixed2(amount);
    assert forall c :: c in text ==> c !in {' '};
    Response.SplitWords(text, ' ', unit, {' '});
    Numbers.FormatFixed2Parses(amount);
  }

  /** The second space-separated piece of a total, if there is one: where the table takes its currency. */
  function CurrencyPiece(total: string): (unit: Option<string>)
    ensures unit.Some? <==> |Strings.Split(total, ' ')| > 1
  {
    var parts := Strings.Split(total, ' ');
    if |parts| > 1 then Some(parts[1]) else None
  }

  datatype CostRow =
    | CostErrorRow(provider: string)
    | CostProviderRow(provider: string, accountId: string, lastCost: real, currentCost: real,
                      difference: real, currency: string)

  datatype CostTotalRow = CostTotalRow(last: real, current: real, difference: real, currency: string)

  datatype CostSummaryTable = CostSummaryTable(rows: seq<CostRow>, total: Option<CostTotalRow>)

  /** What one result adds to the "Last Month" total: nothing when it failed. */
  function LastContribution(r: Model.ProviderCostResult): (amount: real)
    ensures r.error.Some? ==> amount == 0.0
    ensures r.error.None? ==> amount == ParseCost(r.lastTotalCost)
  {
    if r.error.Some? then 0.0 else ParseCost(r.lastTotalCost)
  }

  /** What one result adds to the "Current Month" total: nothing when it failed. */
  function CurrentContribution(r: Model.ProviderCostResult): (amount: real)
    ensures r.error.Some? ==> amount == 0.0
    ensures r.error.None? ==> amount == ParseCost(r.currentTotalCost)
  {
    if r.error.Some? then 0.0 else ParseCost(r.currentTotalCost)
  }

  /**
   * The table's currency once n results have been seen: fixed by the first
   * successful result whose current total has a second piece (which may
   * itself be empty, leaving the choice to a later result).
   */
  function CurrencyAfter(results: seq<Model.ProviderCostResult>, n: nat): string
    requires n <= |results|
  {
    if n == 0 then "" else NextCurrency(CurrencyAfter(results, n - 1), results[n - 1])
  }

  /** The currency after one more result: still unknown ones take the result's second piece, if it has one. */
  function NextCurrency(currency: string, r: Model.ProviderCostResult): string
  {
    if currency == "" && r.error.None? && CurrencyPiece(r.currentTotalCost).Some?
    then CurrencyPiece(r.currentTotalCost).value
    else currency
  }

  /** The summary row of one result, given the currency known at that row. */
  predicate CostRowFor(r: Model.ProviderCostResult, row: CostRow, currency: string)
  {
    row.provider == r.provider
    && (row.CostErrorRow? <==> r.error.Some?)
    && (r.error.None? ==>
          row.accountId == r.accountId
          && row.lastCost == ParseCost(r.lastTotalCost) && row.currentCost == ParseCost(r.currentTotalCost)
          && row.difference == row.currentCost - row.lastCost
          && row.currency == currency)
  }

  /** One pass of drawCostSummaryTable's loop: the result's row, and the currency it leaves behind. */
  method SummaryRow(result: Model.ProviderCostResult, currency: string) returns (row: CostRow, currency': string)
    ensures currency' == NextCurrency(currency, result)
    ensures CostRowFor(result, row, currency')
  {
    currency' := currency;
    if result.error.Some? {
      return CostErrorRow(result.provider), currency';
    }
    var lastCost := ParseCost(result.lastTotalCost);
    var currentCost := ParseCost(result.currentTotalCost);
    var diff := currentCost - lastCost;
    if currency' == "" {
      var parts := Strings.Split(result.currentTotalCost, ' ');
      if |parts| > 1 {
        currency' := parts[1];
      }
    }
    row := CostProviderRow(result.provider, result.accountId, lastCost, currentCost, diff, currency');
  }

  method DrawCostSummaryTable(results: seq<Model.ProviderCostResult>) returns (table: CostSummaryTable)
    ensures |table.rows| == |results|
    ensures forall i :: 0 <= i < |results| ==> CostRowFor(results[i], table.rows[i], CurrencyAfter(results, i + 1))
    ensures table.total.Some? <==> |results| > 1
    ensures table.total.Some? ==>
      table.total.value.last == Sums.Sum(results, LastContribution)
      && table.total.value.current == Sums.Sum(results, CurrentContribution)
      && table.total.value.difference == table.total.value.current - table.total.value.last
      && table.total.value.currency == CurrencyAfter(results, |results|)
  {
    var rows: seq<CostRow> := [];
    var totalLast, totalCurrent := 0.0, 0.0;
    var currency := "";
    for i := 0 to |results|
      invariant SummaryUpTo(results, i, rows, totalLast, totalCurrent, currency)
    {
      rows, totalLast, totalCurrent, currency := NextSummaryRow(results, i, rows, totalLast, totalCurrent, currency);
    }
    assert results[..|results|] == results;
    var total: Option<CostTotalRow> := None;
    if |results| > 1 {
      total := Some(CostTotalRow(totalLast, totalCurrent, totalCurrent - totalLast, currency));
    }
    table := CostSummaryTable(rows, total);
  }

  /** The table's state after the first i providers: their rows, the running sums and the currency. */
  ghost predicate SummaryUpTo(results: seq<Model.ProviderCostResult>, i: nat, rows: seq<CostRow>,
                              totalLast: real, totalCurrent: real, currency: string)
    requires i <= |results|
  {
    && |rows| == i
    && totalLast == Sums.Sum(results[..i], LastContribution)
    && totalCurrent == Sums.Sum(results[..i], CurrentContribution)
    && currency == CurrencyAfter(results, i)
    && forall j :: 0 <= j < i ==> CostRowFor(results[j], rows[j], CurrencyAfter(results, j + 1))
  }

  /** One pass of the summary loop: the i-th provider's row, added to the running sums when it has no error. */
  method NextSummaryRow(results: seq<Model.ProviderCostResult>, i: nat, rows: seq<CostRow>,
                        totalLast: real, totalCurrent: real, currency: string)
    returns (rows': seq<CostRow>, totalLast': real, totalCurrent': real, currency': string)
    requires i < |results| && SummaryUpTo(results, i, rows, totalLast, totalCurrent, currency)
    ensures SummaryUpTo(results, i + 1, rows', totalLast', totalCurrent', currency')
  {
    var result := results[i];
    assert results[..i + 1] == results[..i] + [result];
    Sums.SumAppend(results[..i], result, LastContribution);
    Sums.SumAppend(results[..i], result, CurrentContribution);
    var row;
    row, currency' := SummaryRow(result, currency);
    rows' := rows + [row];
    totalLast', totalCurrent' := totalLast, totalCurrent;
    if result.error.None? {
      totalLast' := totalLast + row.lastCost;
      totalCurrent' := totalCurrent + row.currentCost;
    }
  }

  /** The TOTAL row's two sums do not depend on the order in which the providers answered. */
  lemma TotalsIgnoreArrivalOrder(a: seq<Model.ProviderCostResult>, b: seq<Model.ProviderCostResult>)
    requires multiset(a) == multiset(b)
    ensures Sums.Sum(a, LastContribution) == Sums.Sum(b, LastContribution)
    ensures Sums.Sum(a, CurrentContribution) == Sums.Sum(b, CurrentContribution)
  {
    Sums.SumPermutation(a, b, LastContribution);
    Sums.SumPermutation(a, b, CurrentContribution);
  }

  datatype WasteRow =
    | WasteErrorRow(provider: string)
    | WasteProviderRow(provider: string, accountId: string, volumes: nat, ips: nat,
                       instances: nat, reservations: nat, healthy: bool)

  datatype WasteTotalRow = WasteTotalRow(volumes: nat, ips: nat, instances: nat, reservations: nat, allHealthy: bool)

  datatype WasteSummaryTable = WasteSummaryTable(rows: seq<WasteRow>, total: Option<WasteTotalRow>)

  /** A successful provider's four counts; unused and attached volumes count together. */
  function WasteCounts(r: Model.ProviderWasteResult): (counts: (nat, nat, nat, nat))
  {
    (|r.unusedVolumes| + |r.attachedVolumes|, |r.unusedIPs|, |r.stoppedInstances|, |r.expiringReservations|)
  }

  function WasteTotal(results: seq<Model.ProviderWasteResult>, n: nat): (t: (nat, nat, nat, nat))
    requires n <= |results|
  {
    if n == 0 then (0, 0, 0, 0)
    else
      var t := WasteTotal(results, n - 1);
      var r := results[n - 1];
      if r.error.Some? then t
      else var c := WasteCounts(r); (t.0 + c.0, t.1 + c.1, t.2 + c.2, t.3 + c.3)
  }

  /** The summary row of one result: its counts and whether all four are zero. */
  predicate WasteRowFor(r: Model.ProviderWasteResult, row: WasteRow)
  {
    row.provider == r.provider
    && (row.WasteErrorRow? <==> r.error.Some?)
    && (r.error.None? ==>
          var c := WasteCounts(r);
          row.accountId == r.accountId
          && (row.volumes, row.ips, row.instances, row.reservations) == c
          && (row.healthy <==> c == (0, 0, 0, 0)))
  }

  method DrawWasteSummaryTable(results: seq<Model.ProviderWasteResult>) returns (table: WasteSummaryTable)
    ensures |table.rows| == |results|
    ensures forall i :: 0 <= i < |results| ==> WasteRowFor(results[i], table.rows[i])
    ensures table.total.Some? <==> |results| > 1
    ensures table.total.Some? ==>
      var t := table.total.value;
      (t.volumes, t.ips, t.instances, t.reservations) == WasteTotal(results, |results|)
      && (t.allHealthy <==> WasteTotal(results, |results|) == (0, 0, 0, 0))
  {
    var rows: seq<WasteRow> := [];
    var totalVolumes, totalIPs, totalInstances, totalRIs := 0, 0, 0, 0;
    for i := 0 to |results|
      invariant |rows| == i
      invariant (totalVolumes, totalIPs, totalInstances, totalRIs) == WasteTotal(results, i)
      invariant forall j :: 0 <= j < i ==> WasteRowFor(results[j], rows[j])
    {
      var result := results[i];
      if result.error.Some? {
        rows := rows + [WasteErrorRow(result.provider)];
        continue;
      }
      var volumes := |result.unusedVolumes| + |result.attachedVolumes|;
      var ips := |result.unusedIPs|;
      var instances := |result.stoppedInstances|;
      var ris := |result.expiringReservations|;
      totalVolumes, totalIPs := totalVolumes + volumes, totalIPs + ips;
      totalInstances, totalRIs := totalInstances + instances, totalRIs + ris;
      var healthy := !(volumes > 0 || ips > 0 || instances > 0 || ris > 0);
      rows := rows + [WasteProviderRow(result.provider, result.accountId, volumes, ips, instances, ris, healthy)];
    }
    var total: Option<WasteTotalRow> := None;
    if |results| > 1 {
      var allHealthy := !(totalVolumes > 0 || totalIPs > 0 || totalInstances > 0 || totalRIs > 0);
      total := Some(WasteTotalRow(totalVolumes, totalIPs, totalInstances, totalRIs, allHealthy));
    }
    table := WasteSummaryTable(rows, total);
  }

  /** The TOTAL row reads "All Healthy" exactly when every provider that answered is healthy. */
  lemma {:induction false} AllHealthyIffEveryRowHealthy(results: seq<Model.ProviderWasteResult>, n: nat)
    requires n <= |results|
    ensures WasteTotal(results, n) == (0, 0, 0, 0)
      <==> forall i :: 0 <= i < n && results[i].error.None? ==> WasteCounts(results[i]) == (0, 0, 0, 0)
  {
    if n > 0 {
      AllHealthyIffEveryRowHealthy(results, n - 1);
    }
  }

  /** The section printed after the summary for one provider, if any. */
  datatype Section =
    | ErrorNotice(provider: string, message: string)
    | CostDetails(accountId: string, lastTotal: string, currentTotal: string,
                  lastMonth: Model.CostInfo, currentMonth: Model.CostInfo)
    | TrendDetails(provider: string, accountId: string, months: seq<Model.CostInfo>)
    | WasteDetails(provider: string, accountId: string, result: Model.ProviderWasteResult)

  /** An errored provider gets a notice; the others get details only when both months are present. */
  predicate CostSectionFor(r: Model.ProviderCostResult, section: Option<Section>)
  {
    (r.error.Some? ==> section == Some(ErrorNotice(r.provider, r.error.value)))
    && (r.error.None? && r.currentMonthData.Some? && r.lastMonthData.Some? ==>
          section == Some(CostDetails(r.accountId, r.lastTotalCost, r.currentTotalCost,
                                      r.lastMonthData.value, r.currentMonthData.value)))
    && (r.error.None? && (r.currentMonthData.None? || r.lastMonthData.None?) ==> section.None?)
  }

  method DrawMultiCloudCostTable(results: seq<Model.ProviderCostResult>)
    returns (summary: CostSummaryTable, sections: seq<Option<Section>>)
    ensures summary.total.Some? <==> |results| > 1
    ensures |summary.rows| == |results| && |sections| == |results|
    ensures forall i :: 0 <= i < |results| ==> CostRowFor(results[i], summary.rows[i], CurrencyAfter(results, i + 1))
    ensures forall i :: 0 <= i < |results| ==> CostSectionFor(results[i], sections[i])
  {
    summary := DrawCostSummaryTable(results);
    sections := CostSections(results);
  }

  /** The per-provider part of DrawMultiCloudCostTable. */
  method CostSections(results: seq<Model.ProviderCostResult>) returns (sections: seq<Option<Section>>)
    ensures |sections| == |results|
    ensures forall i :: 0 <= i < |results| ==> CostSectionFor(results[i], sections[i])
  {
    sections := [];
    for i := 0 to |results|
      invariant |sections| == i
      invariant forall j :: 0 <= j < i ==> CostSectionFor(results[j], sections[j])
    {
      var result := results[i];
      if result.error.Some? {
        sections := sections + [Some(ErrorNotice(result.provider, result.error.value))];
        continue;
      }
      if result.currentMonthData.Some? && result.lastMonthData.Some? {
        sections := sections + [Some(CostDetails(result.accountId, result.lastTotalCost, result.currentTotalCost,
                                                 result.lastMonthData.value, result.currentMonthData.value))];
      } else {
        sections := sections + [None];
      }
    }
  }

  /** An errored provider gets a notice; the others get a chart only when they have trend records. */
  predicate TrendSectionFor(r: Model.ProviderCostResult, section: Option<Section>)
  {
    (r.error.Some? ==> section == Some(ErrorNotice(r.provider, r.error.value)))
    && (r.error.None? && |r.trendData| > 0 ==> section == Some(TrendDetails(r.provider, r.accountId, r.trendData)))
    && (r.error.None? && |r.trendData| == 0 ==> section.None?)
  }

  method DrawMultiCloudTrendChart(results: seq<Model.ProviderCostResult>) returns (sections: seq<Option<Section>>)
    ensures |sections| == |results|
    ensures forall i :: 0 <= i < |results| ==> TrendSectionFor(results[i], sections[i])
  {
    sections := [];
    for i := 0 to |results|
      invariant |sections| == i
      invariant forall j :: 0 <= j < i ==> TrendSectionFor(results[j], sections[j])
    {
      var result := results[i];
      if result.error.Some? {
        sections := sections + [Some(ErrorNotice(result.provider, result.error.value))];
        continue;
      }
      if |result.trendData| > 0 {
        sections := sections + [Some(TrendDetails(result.provider, result.accountId, result.trendData))];
      } else {
        sections := sections + [None];
      }
    }
  }

  predicate HasWaste(r: Model.ProviderWasteResult)
  {
    |r.unusedVolumes| > 0 || |r.attachedVolumes| > 0 || |r.unusedIPs| > 0
      || |r.stoppedInstances| > 0 || |r.expiringReservations| > 0
  }

  /** An errored provider gets a notice; the others get details exactly when their row is not healthy. */
  predicate WasteSectionFor(r: Model.ProviderWasteResult, section: Option<Section>)
  {
    (r.error.Some? ==> section == Some(ErrorNotice(r.provider, r.error.value)))
    && (r.error.None? && WasteCounts(r) != (0, 0, 0, 0) ==>
          section == Some(WasteDetails(r.provider, r.accountId, r)))
    && (r.error.None? && WasteCounts(r) == (0, 0, 0, 0) ==> section.None?)
  }

  method DrawMultiCloudWasteTable(results: seq<Model.ProviderWasteResult>)
    returns (summary: WasteSummaryTable, sections: seq<Option<Section>>)
    ensures summary.total.Some? <==> |results| > 1
    ensures |summary.rows| == |results| && |sections| == |results|
    ensures forall i :: 0 <= i < |results| ==> WasteRowFor(results[i], summary.rows[i])
    ensures forall i :: 0 <= i < |results| ==> WasteSectionFor(results[i], sections[i])
  {
    summary := DrawWasteSummaryTable(results);
    sections := [];
    for i := 0 to |results|
      invariant |sections| == i
      invariant forall j :: 0 <= j < i ==> WasteSectionFor(results[j], sections[j])
    {
      var result := results[i];
      if result.error.Some? {
        sections := sections + [Some(ErrorNotice(result.provider, result.error.value))];
        continue;
      }
      var hasWaste := |result.unusedVolumes| > 0 || |result.attachedVolumes| > 0
        || |result.unusedIPs| > 0 || |result.stoppedInstances| > 0 || |result.expiringReservations| > 0;
      if hasWaste {
        sections := sections + [Some(WasteDetails(result.provider, result.accountId, result))];
      } else {
        sections := sections + [None];
      }
    }
  }

  /** The display rank: aws 1, gcp 2, azure 3, and 0 (a missing map key) for anything else. */
  function Priority(provider: string): (rank: int)
    ensures 0 <= rank <= 3
    ensures rank == 0 <==> provider !in {"aws", "gcp", "azure"}
  {
    if provider == "aws" then 1 else if provider == "gcp" then 2 else if provider == "azure" then 3 else 0
  }

  method SortProviderCostResults(results: array<Model.ProviderCostResult>)
    modifies results
    ensures forall i, j :: 0 <= i < j < results.Length ==>
      Priority(results[i].provider) <= Priority(results[j].provider)
    ensures multiset(results[..]) == old(multiset(results[..]))
  {
    Sorting.SortByKey(results, (r: Model.ProviderCostResult) => Priority(r.provider) as real);
    assert forall i, j :: 0 <= i < j < results.Length ==>
      Priority(results[..][i].provider) as real <= Priority(results[..][j].provider) as real;
  }

  method SortProviderWasteResults(results: array<Model.ProviderWasteResult>)
    modifies results
    ensures forall i, j :: 0 <= i < j < results.Length ==>
      Priority(results[i].provider) <= Priority(results[j].provider)
    ensures multiset(results[..]) == old(multiset(results[..]))
  {
    Sorting.SortByKey(results, (r: Model.ProviderWasteResult) => Priority(r.provider) as real);
    assert forall i, j :: 0 <= i < j < results.Length ==>
      Priority(results[..][i].provider) as real <= Priority(results[..][j].provider) as real;
  }

  /** The known providers present in `names`, in display order. */
  function CanonicalOrder(names: set<string>): (order: seq<string>)
    ensures forall p :: p in order <==> p in names && p in {"aws", "gcp", "azure"}
  {
    (if "aws" in names then ["aws"] else [])
      + (if "gcp" in names then ["gcp"] else [])
      + (if "azure" in names then ["azure"] else [])
  }

  /**
   * Distinct known providers sorted by rank come out as aws, gcp, azure with
   * the absent ones skipped, whatever order they were collected in.
   */
  lemma SortedProvidersAreCanonical(names: seq<string>)
    requires forall i :: 0 <= i < |names| ==> names[i] in {"aws", "gcp", "azure"}
    requires forall i, j :: 0 <= i < j < |names| ==> names[i] != names[j]
    requires forall i, j :: 0 <= i < j < |names| ==> Priority(names[i]) <= Priority(names[j])
    ensures names == CanonicalOrder(set p | p in names)
  {
    if |names| > 0 {
      RankAtLeastPosition(names, |names| - 1);
    }
    if |names| == 3 {
      RankAtLeastPosition(names, 1);
      assert names == ["aws", "gcp", "azure"];
    } else if |names| == 2 {
      assert (set p | p in names) == {names[0], names[1]};
      assert Priority(names[0]) < Priority(names[1]);
    } else if |names| == 1 {
      assert (set p | p in names) == {names[0]};
    } else {
      assert (set p | p in names) == {};
    }
  }

  /** Distinct known providers in rank order: the one at position i has rank at least i + 1. */
  lemma {:induction false} RankAtLeastPosition(names: seq<string>, i: nat)
    requires i < |names|
    requires forall k :: 0 <= k < |names| ==> names[k] in {"aws", "gcp", "azure"}
    requires forall k, j :: 0 <= k < j < |names| ==> names[k] != names[j]
    requires forall k, j :: 0 <= k < j < |names| ==> Priority(names[k]) <= Priority(names[j])
    ensures Priority(names[i]) >= i + 1
  {
    if i > 0 {
      RankAtLeastPosition(names, i - 1);
      assert names[i - 1] != names[i];
    }
  }
}
