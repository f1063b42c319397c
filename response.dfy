// The MCP server's JSON-facing records (cmd/mcp/response/types.go) and the
// conversions from the provider-neutral model into them
// (cmd/mcp/response/convert.go).
module Response {
  import opened Wrappers
  import Model
  import Strings
  import Numbers
  import Sorting

  datatype AccountInfo = AccountInfo(provider: string, accountId: string, accountName: string)

  type ServiceCost = Model.ServiceCost

  datatype CostInfo = CostInfo(
    startDate: string, endDate: string, services: seq<ServiceCost>, total: real, currency: string)

  datatype CostComparison = CostComparison(
    currentMonth: CostInfo, lastMonth: CostInfo, difference: real, percentChange: real)

  datatype TrendSummary = TrendSummary(
    totalSpend: real, averageMonthly: real,
    highestMonth: string, highestAmount: real,
    lowestMonth: string, lowestAmount: real)

  datatype CostTrend = CostTrend(months: seq<CostInfo>, summary: TrendSummary)

  datatype UnusedVolume = UnusedVolume(id: string, sizeGB: int, status: string)

  datatype StoppedInstance = StoppedInstance(id: string, name: string, stoppedDays: int)

  datatype UnusedIP = UnusedIP(address: string, allocationId: string)

  datatype Reservation = Reservation(id: string, instanceType: string, status: string, daysUntilExpiry: int)

  datatype WasteSummary = WasteSummary(
    provider: string,
    accountId: string,
    unusedVolumes: seq<UnusedVolume>,
    attachedVolumes: seq<UnusedVolume>,
    unusedIPs: seq<UnusedIP>,
    stoppedInstances: seq<StoppedInstance>,
    expiringReservations: seq<Reservation>)

  datatype AzureSubscription = AzureSubscription(subscriptionId: string, displayName: string, state: string)

  /** Error is "" when the provider succeeded (the field is omitted from the JSON). */
  datatype ProviderCostSummary = ProviderCostSummary(
    provider: string,
    accountId: string,
    currentMonthCost: real,
    lastMonthCost: real,
    difference: real,
    percentChange: real,
    currency: string,
    error: string)

  datatype MultiCloudCostSummary = MultiCloudCostSummary(
    providers: seq<ProviderCostSummary>, total: real, currency: string)

  datatype MultiCloudWasteSummary = MultiCloudWasteSummary(providers: seq<WasteSummary>)

  const ZeroSummary := TrendSummary(0.0, 0.0, "", 0.0, "", 0.0)

  function ConvertAccountInfo(info: Option<Model.AccountInfo>): (r: Option<AccountInfo>)
    ensures r.None? <==> info.None?
    ensures info.Some? ==>
      (r.value.provider == info.value.provider && r.value.accountId == info.value.accountId
       && r.value.accountName == info.value.accountName)
  {
    match info
    case None => None
    case Some(i) => Some(AccountInfo(i.provider, i.accountId, i.accountName))
  }

  /** One service line per key of the group, carrying that key's amount and unit. */
  ghost function Entries(g: Model.CostGroup, keys: set<string>): set<ServiceCost>
  {
    set k | k in g && k in keys :: Model.ServiceCost(k, g[k].amount, g[k].unit)
  }

  /** `services` lists every key of `g` exactly once (as many lines as keys, and the same set). */
  ghost predicate ListsGroup(services: seq<ServiceCost>, g: Model.CostGroup)
  {
    |services| == |g| && Elements(services) == Entries(g, g.Keys)
  }

  ghost predicate AmountsDescending(services: seq<ServiceCost>)
  {
    forall i, j :: 0 <= i < j < |services| ==> services[i].amount >= services[j].amount
  }

  /**
   * The currency of a converted group: the unit of whichever entry with a
   * non-empty unit Go's map iteration meets first, or "USD" when there is none.
   */
  ghost predicate CurrencyOf(currency: string, g: Model.CostGroup)
  {
    if forall k :: k in g ==> g[k].unit == "" then currency == "USD"
    else currency != "" && exists k :: k in g && g[k].unit == currency
  }

  /** What ConvertCostInfo makes of a record, apart from its total. */
  ghost predicate ConvertedFrom(c: CostInfo, info: Model.CostInfo)
  {
    c.startDate == info.start.GetOr("")
    && c.endDate == info.end.GetOr("")
    && ListsGroup(c.services, info.group)
    && AmountsDescending(c.services)
    && CurrencyOf(c.currency, info.group)
  }

  method ConvertCostInfo(info: Option<Model.CostInfo>) returns (r: Option<CostInfo>)
    ensures r.None? <==> info.None?
    ensures info.Some? ==> ConvertedFrom(r.value, info.value)
    ensures info.Some? ==> r.value.total == Model.MapTotal(info.value.group)
  {
    if info.None? {
      return None;
    }
    var services, total, currency := ListGroup(info.value.group);
    var sorted := SortServices(services);
    SameElements(sorted, services);
    if currency == "" {
      currency := "USD";
    }
    r := Some(CostInfo(info.value.start.GetOr(""), info.value.end.GetOr(""), sorted, total, currency));
  }

  /**
   * The range loop of ConvertCostInfo: one line per key in Go's (arbitrary)
   * map order, the running total, and the first non-empty unit met.
   */
  method ListGroup(g: Model.CostGroup) returns (services: seq<ServiceCost>, total: real, currency: string)
    ensures ListsGroup(services, g)
    ensures total == Model.MapTotal(g)
    ensures currency == "" <==> forall k :: k in g ==> g[k].unit == ""
    ensures currency != "" ==> exists k :: k in g && g[k].unit == currency
  {
    services, total, currency := [], 0.0, "";
    var remaining := g.Keys;
    assert Restrict(g, remaining) == g;
    while remaining != {}
      invariant ListedSoFar(g, remaining, services, total, currency)
      decreases |remaining|
    {
      var name :| name in remaining;
      var cost := g[name];
      var services', total', currency' := services + [Model.ServiceCost(name, cost.amount, cost.unit)],
                                         total + cost.amount, currency;
      if currency == "" {
        currency' := cost.unit;
      }
      ListStep(g, remaining, name, services, total, currency, services', total', currency');
      services, total, currency := services', total', currency';
      remaining := remaining - {name};
    }
    assert Restrict(g, {}) == map[];
    assert g.Keys - {} == g.Keys;
  }

  /** The loop invariant of ListGroup: the keys already visited are listed, summed, and searched for a unit. */
  ghost predicate ListedSoFar(g: Model.CostGroup, remaining: set<string>, services: seq<ServiceCost>, total: real,
                              currency: string)
  {
    remaining <= g.Keys
    && |services| + |remaining| == |g|
    && Elements(services) == Entries(g, g.Keys - remaining)
    && total + Model.MapTotal(Restrict(g, remaining)) == Model.MapTotal(g)
    && (currency == "" ==> forall k :: k in g && k !in remaining ==> g[k].unit == "")
    && (currency != "" ==> exists k :: k in g && g[k].unit == currency)
  }

  lemma ListStep(g: Model.CostGroup, remaining: set<string>, name: string, services: seq<ServiceCost>, total: real,
                 currency: string, services': seq<ServiceCost>, total': real, currency': string)
    requires ListedSoFar(g, remaining, services, total, currency) && name in remaining
    requires services' == services + [Model.ServiceCost(name, g[name].amount, g[name].unit)]
    requires total' == total + g[name].amount
    requires currency' == if currency == "" then g[name].unit else currency
    ensures ListedSoFar(g, remaining - {name}, services', total', currency')
  {
    Model.MapTotalRemove(Restrict(g, remaining), name);
    assert Restrict(g, remaining) - {name} == Restrict(g, remaining - {name});
    ElementsAppend(services, Model.ServiceCost(name, g[name].amount, g[name].unit));
    assert Entries(g, g.Keys - (remaining - {name}))
      == Entries(g, g.Keys - remaining) + {Model.ServiceCost(name, g[name].amount, g[name].unit)};
  }

  ghost function Elements<T>(s: seq<T>): set<T>
  {
    set x | x in s
  }

  lemma ElementsAppend<T>(s: seq<T>, x: T)
    ensures Elements(s + [x]) == Elements(s) + {x}
  {
  }

  lemma SameElements<T>(a: seq<T>, b: seq<T>)
    requires multiset(a) == multiset(b)
    ensures |a| == |b| && Elements(a) == Elements(b)
  {
    assert |a| == |multiset(a)| && |b| == |multiset(b)|;
    forall x ensures x in a <==> x in b {
      assert x in a <==> x in multiset(a);
      assert x in b <==> x in multiset(b);
    }
  }

  function Restrict(g: Model.CostGroup, keys: set<string>): (r: Model.CostGroup)
    ensures r.Keys == g.Keys * keys
    ensures forall k :: k in r ==> r[k] == g[k]
  {
    map k | k in g && k in keys :: g[k]
  }

  /** sort.Slice by Amount, largest first, on the freshly built slice. */
  method SortServices(services: seq<ServiceCost>) returns (sorted: seq<ServiceCost>)
    ensures multiset(sorted) == multiset(services)
    ensures AmountsDescending(sorted)
  {
    var a := new ServiceCost[|services|](i requires 0 <= i < |services| => services[i]);
    assert a[..] == services;
    Sorting.SortByKey(a, (s: ServiceCost) => -s.amount);
    sorted := a[..];
  }

  /**
   * Reads "<amount> <unit>" back from a provider's formatted total. The unit
   * is always a non-blank word: the second field, or "USD" when there is none.
   */
  function ParseTotalCostString(totalStr: string): (r: (real, string))
    ensures r.1 != "" && forall c :: c in r.1 ==> c !in Strings.Whitespace
    ensures |Strings.Fields(totalStr)| >= 2 ==> r.1 == Strings.Fields(totalStr)[1]
    ensures |Strings.Fields(totalStr)| < 2 ==> r.1 == "USD"
    ensures |Strings.Fields(totalStr)| == 0 ==> r.0 == 0.0
    ensures |Strings.Fields(totalStr)| > 0 ==> r.0 == Numbers.ParseOrZero(Strings.Fields(totalStr)[0])
  {
    var parts := Strings.Fields(totalStr);
    if |parts| >= 2 then (Numbers.ParseOrZero(parts[0]), parts[1])
    else if |parts| == 1 then (Numbers.ParseOrZero(parts[0]), "USD")
    else (0.0, "USD")
  }

  /** A total printed as "%.2f %s" reads back as the amount to the cent and its unit ("USD" for an empty unit). */
  lemma ParseFormattedTotal(amount: real, unit: string)
    requires forall c :: c in unit ==> c !in Strings.Whitespace
    ensures ParseTotalCostString(Numbers.FormatTotal(amount, unit))
      == (Numbers.Cents(amount) as real / 100.0, if unit == "" then "USD" else unit)
  {
    var text := Numbers.FormatFixed2(amount);
    FormattedAmountIsWord(amount);
    SplitWords(text, ' ', unit, Strings.Whitespace);
    NoSeparator(unit, Strings.Whitespace);
    Numbers.FormatFixed2Parses(amount);
    assert Strings.SplitOn(Numbers.FormatTotal(amount, unit), Strings.Whitespace) == [text, unit];
    assert Strings.NonEmpty([unit]) == (if unit == "" then [] else [unit]);
    assert Strings.NonEmpty([text, unit]) == [text] + Strings.NonEmpty([unit]);
  }

  lemma FormattedAmountIsWord(amount: real)
    ensures Numbers.FormatFixed2(amount) != []
    ensures forall c :: c in Numbers.FormatFixed2(amount) ==> c !in Strings.Whitespace
  {
    var n := Numbers.RoundHalfEven(Numbers.Abs(amount) * 100.0);
    var digits := Numbers.CentsText(n);
    assert forall c :: c in digits ==> Numbers.IsDigit(c) || c == '.' by {
      var w := Numbers.NatToString(n / 100);
      assert digits == w + "." + [Numbers.DigitChar(n / 10 % 10), Numbers.DigitChar(n % 10)];
      forall c | c in digits ensures Numbers.IsDigit(c) || c == '.' {
        var i :| 0 <= i < |digits| && digits[i] == c;
        if i < |w| { assert digits[i] == w[i]; }
      }
    }
  }

  lemma {:induction false} SplitWords(a: string, sep: char, b: string, seps: set<char>)
    requires sep in seps
    requires forall c :: c in a ==> c !in seps
    ensures Strings.SplitOn(a + [sep] + b, seps) == [a] + Strings.SplitOn(b, seps)
  {
    if a != [] {
      SplitWords(a[1..], sep, b, seps);
      assert (a + [sep] + b)[1..] == a[1..] + [sep] + b;
      assert (a + [sep] + b)[0] == a[0] && a[0] !in seps;
      assert [a[0]] + a[1..] == a;
    } else {
      assert a + [sep] + b == [sep] + b;
    }
  }

  lemma {:induction false} NoSeparator(a: string, seps: set<char>)
    requires forall c :: c in a ==> c !in seps
    ensures Strings.SplitOn(a, seps) == [a]
  {
    if a != [] {
      NoSeparator(a[1..], seps);
      assert [a[0]] + a[1..] == a;
    }
  }

  /** The month's "Total" entry, or 0 when the record has none. */
  function MonthTotal(info: Model.CostInfo): (total: real)
    ensures "Total" in info.group ==> total == info.group["Total"].amount
    ensures "Total" !in info.group ==> total == 0.0
  {
    if "Total" in info.group then info.group["Total"].amount else 0.0
  }

  /** The first seven characters of the start date (YYYY-MM), or "" when it is shorter. */
  function MonthLabel(startDate: string): (yearMonth: string)
    ensures yearMonth == "" || (|yearMonth| == 7 && Strings.HasPrefix(startDate, yearMonth))
    ensures |startDate| >= 7 <==> yearMonth != ""
  {
    if |startDate| >= 7 then startDate[..7] else ""
  }

  function LabelOf(info: Model.CostInfo): string
  {
    MonthLabel(info.start.GetOr(""))
  }

  function SumTotals(data: seq<Model.CostInfo>, n: nat): real
    requires n <= |data|
  {
    if n == 0 then 0.0 else SumTotals(data, n - 1) + MonthTotal(data[n - 1])
  }

  /** Month k holds the greatest total among the first n, and no earlier month reaches it. */
  ghost predicate FirstHighest(data: seq<Model.CostInfo>, n: nat, amount: real, name: string)
    requires n <= |data|
  {
    exists k :: 0 <= k < n && MonthTotal(data[k]) == amount && LabelOf(data[k]) == name
      && (forall j :: 0 <= j < n ==> MonthTotal(data[j]) <= amount)
      && (forall j :: 0 <= j < k ==> MonthTotal(data[j]) < amount)
  }

  /** Month k holds the least total among the first n, and no earlier month is as low. */
  ghost predicate FirstLowest(data: seq<Model.CostInfo>, n: nat, amount: real, name: string)
    requires n <= |data|
  {
    exists k :: 0 <= k < n && MonthTotal(data[k]) == amount && LabelOf(data[k]) == name
      && (forall j :: 0 <= j < n ==> MonthTotal(data[j]) >= amount)
      && (forall j :: 0 <= j < k ==> MonthTotal(data[j]) > amount)
  }

  lemma HighestStep(data: seq<Model.CostInfo>, i: nat, amount: real, name: string)
    requires i < |data| && (i > 0 ==> FirstHighest(data, i, amount, name))
    ensures var t := MonthTotal(data[i]);
      if i == 0 || t > amount then FirstHighest(data, i + 1, t, LabelOf(data[i]))
      else FirstHighest(data, i + 1, amount, name)
  {
    var t := MonthTotal(data[i]);
    if i == 0 || t > amount {
      assert forall j :: 0 <= j < i ==> MonthTotal(data[j]) < t;
    } else {
      var k :| 0 <= k < i && MonthTotal(data[k]) == amount && LabelOf(data[k]) == name
        && (forall j :: 0 <= j < i ==> MonthTotal(data[j]) <= amount)
        && (forall j :: 0 <= j < k ==> MonthTotal(data[j]) < amount);
      assert k < i + 1;
    }
  }

  lemma LowestStep(data: seq<Model.CostInfo>, i: nat, amount: real, name: string)
    requires i < |data| && (i > 0 ==> FirstLowest(data, i, amount, name))
    ensures var t := MonthTotal(data[i]);
      if i == 0 || t < amount then FirstLowest(data, i + 1, t, LabelOf(data[i]))
      else FirstLowest(data, i + 1, amount, name)
  {
    var t := MonthTotal(data[i]);
    if i == 0 || t < amount {
      assert forall j :: 0 <= j < i ==> MonthTotal(data[j]) > t;
    } else {
      var k :| 0 <= k < i && MonthTotal(data[k]) == amount && LabelOf(data[k]) == name
        && (forall j :: 0 <= j < i ==> MonthTotal(data[j]) >= amount)
        && (forall j :: 0 <= j < k ==> MonthTotal(data[j]) > amount);
      assert k < i + 1;
    }
  }

  ghost predicate MonthsConverted(months: seq<CostInfo>, data: seq<Model.CostInfo>, n: nat)
    requires n <= |months| && n <= |data|
  {
    forall j :: 0 <= j < n ==> ConvertedFrom(months[j], data[j]) && months[j].total == MonthTotal(data[j])
  }

  lemma ConvertedIgnoresTotal(c: CostInfo, info: Model.CostInfo, total: real)
    requires ConvertedFrom(c, info)
    ensures ConvertedFrom(c.(total := total), info)
  {
  }

  lemma AppendMonth(months: seq<CostInfo>, month: CostInfo, data: seq<Model.CostInfo>, i: nat)
    requires i == |months| && i < |data| && MonthsConverted(months, data, i)
    requires ConvertedFrom(month, data[i]) && month.total == MonthTotal(data[i])
    ensures MonthsConverted(months + [month], data, i + 1)
  {
    var next := months + [month];
    forall j | 0 <= j < i + 1
      ensures ConvertedFrom(next[j], data[j]) && next[j].total == MonthTotal(data[j])
    {
      if j < i { assert next[j] == months[j]; }
    }
  }

  /** One iteration's record: ConvertCostInfo's output with Total replaced by the "Total" entry. */
  method ConvertMonth(monthData: Model.CostInfo) returns (month: CostInfo)
    ensures ConvertedFrom(month, monthData) && month.total == MonthTotal(monthData)
  {
    var costInfo := ConvertCostInfo(Some(monthData));
    month := costInfo.value.(total := MonthTotal(monthData));
    ConvertedIgnoresTotal(costInfo.value, monthData, month.total);
  }

  /** One iteration of ConvertTrendData's loop: month i is converted, added, and compared with the extremes so far. */
  method AddMonth(data: seq<Model.CostInfo>, i: nat, months: seq<CostInfo>, totalSpend: real, first: bool,
                  highestAmount: real, highestMonth: string, lowestAmount: real, lowestMonth: string)
    returns (months': seq<CostInfo>, totalSpend': real, highestAmount': real, highestMonth': string,
             lowestAmount': real, lowestMonth': string)
    requires i < |data| && |months| == i && MonthsConverted(months, data, i)
    requires totalSpend == SumTotals(data, i) && (first <==> i == 0)
    requires i > 0 ==> FirstHighest(data, i, highestAmount, highestMonth)
    requires i > 0 ==> FirstLowest(data, i, lowestAmount, lowestMonth)
    ensures |months'| == i + 1 && MonthsConverted(months', data, i + 1)
    ensures totalSpend' == SumTotals(data, i + 1)
    ensures FirstHighest(data, i + 1, highestAmount', highestMonth')
    ensures FirstLowest(data, i + 1, lowestAmount', lowestMonth')
  {
    var month := ConvertMonth(data[i]);
    var monthTotal := month.total;
    AppendMonth(months, month, data, i);
    months' := months + [month];
    assert SumTotals(data, i + 1) == SumTotals(data, i) + monthTotal;
    totalSpend' := totalSpend + monthTotal;
    var monthLabel := MonthLabel(month.startDate);
    HighestStep(data, i, highestAmount, highestMonth);
    LowestStep(data, i, lowestAmount, lowestMonth);
    highestAmount', highestMonth' := highestAmount, highestMonth;
    lowestAmount', lowestMonth' := lowestAmount, lowestMonth;
    if first || monthTotal > highestAmount {
      highestAmount', highestMonth' := monthTotal, monthLabel;
    }
    if first || monthTotal < lowestAmount {
      lowestAmount', lowestMonth' := monthTotal, monthLabel;
    }
  }

  /**
   * What ConvertTrendData promises about its answer: one converted month per
   * input month, the summed "Total" amounts and their average, and the first
   * highest and first lowest month; a zero summary for no data.
   */
  ghost predicate TrendOf(trend: CostTrend, data: seq<Model.CostInfo>)
  {
    && (data == [] ==> trend == CostTrend([], ZeroSummary))
    && |trend.months| == |data|
    && (forall i :: 0 <= i < |data| ==>
          ConvertedFrom(trend.months[i], data[i]) && trend.months[i].total == MonthTotal(data[i]))
    && trend.summary.totalSpend == SumTotals(data, |data|)
    && (data != [] ==> trend.summary.averageMonthly == SumTotals(data, |data|) / |data| as real)
    && (data != [] ==> FirstHighest(data, |data|, trend.summary.highestAmount, trend.summary.highestMonth))
    && (data != [] ==> FirstLowest(data, |data|, trend.summary.lowestAmount, trend.summary.lowestMonth))
  }

  method ConvertTrendData(data: seq<Model.CostInfo>) returns (trend: CostTrend)
    ensures TrendOf(trend, data)
    ensures data == [] ==> trend == CostTrend([], ZeroSummary)
    ensures |trend.months| == |data|
    ensures forall i :: 0 <= i < |data| ==>
      ConvertedFrom(trend.months[i], data[i]) && trend.months[i].total == MonthTotal(data[i])
    ensures trend.summary.totalSpend == SumTotals(data, |data|)
    ensures data != [] ==> trend.summary.averageMonthly == SumTotals(data, |data|) / |data| as real
    ensures data != [] ==>
      FirstHighest(data, |data|, trend.summary.highestAmount, trend.summary.highestMonth)
    ensures data != [] ==>
      FirstLowest(data, |data|, trend.summary.lowestAmount, trend.summary.lowestMonth)
  {
    if |data| == 0 {
      return CostTrend([], ZeroSummary);
    }
    var months: seq<CostInfo> := [];
    var totalSpend := 0.0;
    var highestAmount, lowestAmount := 0.0, 0.0;
    var highestMonth, lowestMonth := "", "";
    var first := true;
    var i := 0;
    while i < |data|
      invariant 0 <= i <= |data|
      invariant |months| == i
      invariant MonthsConverted(months, data, i)
      invariant totalSpend == SumTotals(data, i)
      invariant first <==> i == 0
      invariant i > 0 ==> FirstHighest(data, i, highestAmount, highestMonth)
      invariant i > 0 ==> FirstLowest(data, i, lowestAmount, lowestMonth)
    {
      months, totalSpend, highestAmount, highestMonth, lowestAmount, lowestMonth :=
        AddMonth(data, i, months, totalSpend, first, highestAmount, highestMonth, lowestAmount, lowestMonth);
      first := false;
      i := i + 1;
    }
    var avgMonthly := totalSpend / |months| as real;
    trend := CostTrend(months, TrendSummary(
      totalSpend, avgMonthly, highestMonth, highestAmount, lowestMonth, lowestAmount));
  }

  /** One response entry per volume, in order, with the same fields. */
  predicate VolumesConverted(result: seq<UnusedVolume>, volumes: seq<Model.UnusedVolume>)
  {
    |result| == |volumes|
    && forall i :: 0 <= i < |volumes| ==> result[i] == UnusedVolume(volumes[i].id, volumes[i].sizeGB, volumes[i].status)
  }

  method ConvertUnusedVolumes(volumes: seq<Model.UnusedVolume>) returns (result: seq<UnusedVolume>)
    ensures VolumesConverted(result, volumes)
  {
    result := [];
    for i := 0 to |volumes|
      invariant |result| == i
      invariant forall j :: 0 <= j < i ==>
        result[j] == UnusedVolume(volumes[j].id, volumes[j].sizeGB, volumes[j].status)
    {
      var v := volumes[i];
      result := result + [UnusedVolume(v.id, v.sizeGB, v.status)];
    }
  }

  predicate InstancesConverted(result: seq<StoppedInstance>, instances: seq<Model.StoppedInstance>)
  {
    |result| == |instances|
    && forall i :: 0 <= i < |instances| ==>
      result[i] == StoppedInstance(instances[i].id, instances[i].name, instances[i].stoppedDays)
  }

  method ConvertStoppedInstances(instances: seq<Model.StoppedInstance>) returns (result: seq<StoppedInstance>)
    ensures InstancesConverted(result, instances)
  {
    result := [];
    for i := 0 to |instances|
      invariant |result| == i
      invariant forall j :: 0 <= j < i ==>
        result[j] == StoppedInstance(instances[j].id, instances[j].name, instances[j].stoppedDays)
    {
      var s := instances[i];
      result := result + [StoppedInstance(s.id, s.name, s.stoppedDays)];
    }
  }

  predicate IPsConverted(result: seq<UnusedIP>, ips: seq<Model.UnusedIP>)
  {
    |result| == |ips| && forall i :: 0 <= i < |ips| ==> result[i] == UnusedIP(ips[i].address, ips[i].allocationId)
  }

  method ConvertUnusedIPs(ips: seq<Model.UnusedIP>) returns (result: seq<UnusedIP>)
    ensures IPsConverted(result, ips)
  {
    result := [];
    for i := 0 to |ips|
      invariant |result| == i
      invariant forall j :: 0 <= j < i ==> result[j] == UnusedIP(ips[j].address, ips[j].allocationId)
    {
      result := result + [UnusedIP(ips[i].address, ips[i].allocationId)];
    }
  }

  predicate ReservationsConverted(result: seq<Reservation>, reservations: seq<Model.Reservation>)
  {
    |result| == |reservations|
    && forall i :: 0 <= i < |reservations| ==> result[i] == Reservation(
      reservations[i].id, reservations[i].instanceType, reservations[i].status, reservations[i].daysUntilExpiry)
  }

  method ConvertReservations(reservations: seq<Model.Reservation>) returns (result: seq<Reservation>)
    ensures ReservationsConverted(result, reservations)
  {
    result := [];
    for i := 0 to |reservations|
      invariant |result| == i
      invariant forall j :: 0 <= j < i ==> result[j] == Reservation(
        reservations[j].id, reservations[j].instanceType, reservations[j].status, reservations[j].daysUntilExpiry)
    {
      var r := reservations[i];
      result := result + [Reservation(r.id, r.instanceType, r.status, r.daysUntilExpiry)];
    }
  }
}
