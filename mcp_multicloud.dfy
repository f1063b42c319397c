// The MCP server's multi-cloud tools (cmd/mcp/tools/multicloud.go): one
// collector per configured provider, run concurrently, whose summaries are
// returned in arrival order; the cost tool adds a grand total.
module McpMultiCloud {
  import opened Wrappers
  import Model
  import Response
  import FailFast
  import Sums
  import FanOut

  /** The constructors a collector runs before asking for identity. */
  function Before(provider: string, e: Model.ProviderEnv): seq<Option<string>>
  {
    if provider == "gcp" then [e.identityClient]
    else if provider == "azure" then [e.config, e.identityClient]
    else [e.config]
  }

  /** The constructor a cost collector runs after identity (AWS builds its cost client without error). */
  function CostAfter(provider: string, e: Model.ProviderEnv): seq<Option<string>>
  {
    if provider == "gcp" || provider == "azure" then [e.costClient] else []
  }

  /** The constructor a waste collector runs after identity. */
  function WasteAfter(provider: string, e: Model.ProviderEnv): seq<Option<string>>
  {
    if provider == "gcp" || provider == "azure" then [e.computeClient] else []
  }

  /** The difference of two monthly totals and its percentage of last month, which stays 0 unless last month cost something. */
  function Comparison(current: real, last: real): (c: (real, real))
    ensures c.0 == current - last
    ensures last > 0.0 ==> c.1 * last == c.0 * 100.0
    ensures last <= 0.0 ==> c.1 == 0.0
  {
    var difference := current - last;
    (difference, if last > 0.0 then (difference / last) * 100.0 else 0.0)
  }

  /** The JSON error field: empty when there was none. */
  function ErrorText(e: Option<string>): (text: string)
    ensures e.Some? ==> text == e.value
    ensures e.None? ==> text == ""
  {
    match e
    case None => ""
    case Some(message) => message
  }

  /** The Total and Currency of a month's converted costs. */
  method ConvertMonth(info: Model.CostInfo) returns (total: real, currency: string)
    ensures total == Model.MapTotal(info.group)
    ensures Response.CurrencyOf(currency, info.group)
  {
    var converted := Response.ConvertCostInfo(Some(info));
    total, currency := converted.value.total, converted.value.currency;
  }

  /**
   * What a cost collector reports: the first error among its steps (the
   * constructors before identity, identity, the constructors after it, the
   * two by-service months), the account ID once identity succeeded, the
   * current month's total and currency once it was read ("USD" until then),
   * and last month's total with the comparison once that was read too.
   */
  ghost predicate CostSummaryCollected(provider: string, before: seq<Option<string>>, identity: Model.IdentityService,
                                       after: seq<Option<string>>, cost: Model.CostService,
                                       r: Response.ProviderCostSummary)
  {
    var opening := FailFast.OpeningSteps(before, identity);
    var identified := FailFast.FirstError(opening).None?;
    var gotCurrent := identified && FailFast.FirstError(after).None? && cost.currentMonthByService.Success?;
    var gotLast := gotCurrent && cost.lastMonthByService.Success?;
    r.provider == provider
    && r.error == ErrorText(FailFast.FirstError(opening + after + [
         FailFast.ErrorOf(cost.currentMonthByService), FailFast.ErrorOf(cost.lastMonthByService)]))
    && r.accountId == (if identified then identity.accountInfo.value.accountId else "")
    && (if gotCurrent
        then r.currentMonthCost == Model.MapTotal(cost.currentMonthByService.value.group)
             && Response.CurrencyOf(r.currency, cost.currentMonthByService.value.group)
        else r.currentMonthCost == 0.0 && r.currency == "USD")
    && (if gotLast
        then r.lastMonthCost == Model.MapTotal(cost.lastMonthByService.value.group)
             && (r.difference, r.percentChange) == Comparison(r.currentMonthCost, r.lastMonthCost)
        else r.lastMonthCost == 0.0 && r.difference == 0.0 && r.percentChange == 0.0)
  }

  method CollectCostSummary(provider: string, before: seq<Option<string>>, identity: Model.IdentityService,
                            after: seq<Option<string>>, cost: Model.CostService)
    returns (result: Response.ProviderCostSummary)
    ensures CostSummaryCollected(provider, before, identity, after, cost, result)
  {
    ghost var opening := FailFast.OpeningSteps(before, identity);
    ghost var queries := [FailFast.ErrorOf(cost.currentMonthByService), FailFast.ErrorOf(cost.lastMonthByService)];
    FailFast.FirstErrorAppend(opening, after);
    FailFast.FirstErrorAppend(opening + after, queries);
    var accountId, err := FailFast.Open(before, identity);
    if err.Some? {
      return Response.ProviderCostSummary(provider, accountId, 0.0, 0.0, 0.0, 0.0, "USD", err.value);
    }
    err := FailFast.RunSteps(after);
    if err.Some? {
      return Response.ProviderCostSummary(provider, accountId, 0.0, 0.0, 0.0, 0.0, "USD", err.value);
    }
    if cost.currentMonthByService.Failure? {
      FailFast.FailsAt(queries, 0);
      return Response.ProviderCostSummary(provider, accountId, 0.0, 0.0, 0.0, 0.0, "USD",
                                          cost.currentMonthByService.error);
    }
    var currentTotal, currency := ConvertMonth(cost.currentMonthByService.value);
    if cost.lastMonthByService.Failure? {
      FailFast.FailsAt(queries, 1);
      return Response.ProviderCostSummary(provider, accountId, currentTotal, 0.0, 0.0, 0.0, currency,
                                          cost.lastMonthByService.error);
    }
    var last, _ := ConvertMonth(cost.lastMonthByService.value);
    var difference := currentTotal - last;
    var percentChange := 0.0;
    if last > 0.0 {
      percentChange := (difference / last) * 100.0;
    }
    FailFast.AllSucceed(queries);
    return Response.ProviderCostSummary(provider, accountId, currentTotal, last, difference, percentChange,
                                        currency, "");
  }

  /** A provider's contribution to the grand total: its current month, unless it failed. */
  function CurrentIfOk(r: Response.ProviderCostSummary): real
  {
    if r.error == "" then r.currentMonthCost else 0.0
  }

  /** Whether a summary sets the grand total's currency: it succeeded and names one. */
  predicate ReportsCurrency(r: Response.ProviderCostSummary)
  {
    r.error == "" && r.currency != ""
  }

  /** The grand total's currency: that of the last summary reporting one, or "USD" when none does. */
  function LastCurrency(results: seq<Response.ProviderCostSummary>): string
  {
    if |results| == 0 then "USD"
    else if ReportsCurrency(results[|results| - 1]) then results[|results| - 1].currency
    else LastCurrency(results[..|results| - 1])
  }

  /** LastCurrency picks the latest summary that reports a currency, and "USD" only when none does. */
  lemma {:induction false} LastCurrencyIsLatestReported(results: seq<Response.ProviderCostSummary>)
    ensures (forall i :: 0 <= i < |results| ==> !ReportsCurrency(results[i])) ==> LastCurrency(results) == "USD"
    ensures forall i :: (0 <= i < |results| && ReportsCurrency(results[i])
                         && forall j :: i < j < |results| ==> !ReportsCurrency(results[j]))
                        ==> LastCurrency(results) == results[i].currency
  {
    if |results| > 0 {
      var init := results[..|results| - 1];
      LastCurrencyIsLatestReported(init);
      assert forall i :: 0 <= i < |init| ==> init[i] == results[i];
    }
  }

  /** The loop over the summaries: the sum of the successful current months, and the last reported currency. */
  method Totals(results: seq<Response.ProviderCostSummary>) returns (total: real, currency: string)
    ensures total == Sums.Sum(results, CurrentIfOk)
    ensures currency == LastCurrency(results)
  {
    total, currency := 0.0, "USD";
    for i := 0 to |results|
      invariant total == Sums.Sum(results[..i], CurrentIfOk)
      invariant currency == LastCurrency(results[..i])
    {
      var r := results[i];
      assert results[..i + 1] == results[..i] + [r];
      assert results[..i + 1][..i] == results[..i];
      Sums.SumAppend(results[..i], r, CurrentIfOk);
      if r.error == "" {
        total := total + r.currentMonthCost;
        if r.currency != "" {
          currency := r.currency;
        }
      }
    }
    assert results[..|results|] == results;
  }

  /** The grand total does not depend on the order in which the collectors finished. */
  lemma TotalIgnoresArrivalOrder(a: seq<Response.ProviderCostSummary>, b: seq<Response.ProviderCostSummary>)
    requires multiset(a) == multiset(b)
    ensures Sums.Sum(a, CurrentIfOk) == Sums.Sum(b, CurrentIfOk)
  {
    Sums.SumPermutation(a, b, CurrentIfOk);
  }

  /** The grand total's currency does: when two providers report different currencies, the later arrival wins. */
  lemma CurrencyDependsOnArrivalOrder()
    ensures var aws := Response.ProviderCostSummary("aws", "1", 1.0, 0.0, 1.0, 0.0, "USD", "");
            var azure := Response.ProviderCostSummary("azure", "2", 1.0, 0.0, 1.0, 0.0, "EUR", "");
            LastCurrency([aws, azure]) == "EUR" && LastCurrency([azure, aws]) == "USD"
  {
    var aws := Response.ProviderCostSummary("aws", "1", 1.0, 0.0, 1.0, 0.0, "USD", "");
    var azure := Response.ProviderCostSummary("azure", "2", 1.0, 0.0, 1.0, 0.0, "EUR", "");
    assert [aws, azure][..1] == [aws];
    assert [azure, aws][..1] == [azure];
  }

  function SummaryProvider(r: Response.ProviderCostSummary): string { r.provider }

  function WasteProvider(r: Response.WasteSummary): string { r.provider }

  /** The providers the cost tool queries: AWS always, GCP with a project and a billing account, Azure with a subscription. */
  function CostProviders(gcpProjectID: string, gcpBillingAccount: string, azureSubscriptionID: string): (names: set<string>)
    ensures "aws" in names
    ensures "gcp" in names <==> gcpProjectID != "" && gcpBillingAccount != ""
    ensures "azure" in names <==> azureSubscriptionID != ""
    ensures names <= {"aws", "gcp", "azure"}
  {
    {"aws"} + (if gcpProjectID != "" && gcpBillingAccount != "" then {"gcp"} else {})
      + (if azureSubscriptionID != "" then {"azure"} else {})
  }

  /** The summary the cost collector for provider p reports, given what p's SDK answers. */
  ghost predicate CostWorker(env: Model.Environment, p: string, r: Response.ProviderCostSummary)
  {
    var e := Model.EnvOf(env, p);
    r.provider == p && CostSummaryCollected(p, Before(p, e), e.identity, CostAfter(p, e), e.cost, r)
  }

  /** One cost collector, run against provider p's own clients. */
  method CostCollector(p: string, env: Model.Environment) returns (r: Response.ProviderCostSummary)
    ensures CostWorker(env, p, r)
  {
    var e := Model.EnvOf(env, p);
    r := CollectCostSummary(p, Before(p, e), e.identity, CostAfter(p, e), e.cost);
  }

  method LaunchCostCollectors(gcpProjectID: string, gcpBillingAccount: string, azureSubscriptionID: string,
                              env: Model.Environment) returns (finished: map<string, Response.ProviderCostSummary>)
    ensures finished.Keys == CostProviders(gcpProjectID, gcpBillingAccount, azureSubscriptionID)
    ensures forall p :: p in finished ==> finished[p].provider == p && CostWorker(env, p, finished[p])
  {
    var aws := CostCollector("aws", env);
    finished := map["aws" := aws];
    if gcpProjectID != "" && gcpBillingAccount != "" {
      var gcp := CostCollector("gcp", env);
      finished := finished["gcp" := gcp];
    }
    if azureSubscriptionID != "" {
      var azure := CostCollector("azure", env);
      finished := finished["azure" := azure];
    }
  }

  /**
   * multicloud_get_cost_summary: one summary per queried provider, in the
   * order the collectors finished, with the grand total and its currency.
   */
  method CostSummaryHandler(gcpProjectID: string, gcpBillingAccount: string, azureSubscriptionID: string,
                            env: Model.Environment) returns (resp: Response.MultiCloudCostSummary)
    ensures (set r | r in resp.providers :: SummaryProvider(r)) == CostProviders(gcpProjectID, gcpBillingAccount, azureSubscriptionID)
    ensures forall i, j :: 0 <= i < j < |resp.providers| ==> resp.providers[i].provider != resp.providers[j].provider
    ensures forall i :: 0 <= i < |resp.providers| ==> CostWorker(env, resp.providers[i].provider, resp.providers[i])
    ensures resp.total == Sums.Sum(resp.providers, CurrentIfOk)
    ensures resp.currency == LastCurrency(resp.providers)
  {
    var finished := LaunchCostCollectors(gcpProjectID, gcpBillingAccount, azureSubscriptionID, env);
    var results := ArriveCosts(finished, env);
    var total, currency := Totals(results);
    resp := Response.MultiCloudCostSummary(results, total, currency);
  }

  /** The cost summaries as the collectors deliver them: each provider once, each its own collector's. */
  method ArriveCosts(finished: map<string, Response.ProviderCostSummary>, ghost env: Model.Environment)
    returns (results: seq<Response.ProviderCostSummary>)
    requires forall p :: p in finished ==> finished[p].provider == p && CostWorker(env, p, finished[p])
    ensures (set r | r in results :: SummaryProvider(r)) == finished.Keys
    ensures forall i, j :: 0 <= i < j < |results| ==> results[i].provider != results[j].provider
    ensures forall i :: 0 <= i < |results| ==> CostWorker(env, results[i].provider, results[i])
  {
    var order;
    order, results := FanOut.Arrive(finished);
    FanOut.ArrivedProviders(finished, order, results, SummaryProvider);
    forall i | 0 <= i < |results| ensures CostWorker(env, results[i].provider, results[i]) {
      assert results[i] == finished[order[i]] && results[i].provider == order[i];
    }
  }

  /** A list whose error is ignored (`items, _ := …`): the items, or none when the call failed. */
  function Listed<T>(o: Outcome<seq<T>>): (items: seq<T>)
    ensures o.Success? ==> items == o.value
    ensures o.Failure? ==> items == []
  {
    if o.Success? then o.value else []
  }

  /** Whether a waste collector gets past its constructors and identity and returns a summary. */
  ghost predicate Reaches(before: seq<Option<string>>, identity: Model.IdentityService, after: seq<Option<string>>)
  {
    FailFast.FirstError(FailFast.OpeningSteps(before, identity) + after).None?
  }

  /**
   * What a waste collector returns: nothing when a constructor or identity
   * fails; otherwise the account ID and every list converted, a list whose
   * query failed being empty.
   */
  ghost predicate WasteSummaryCollected(provider: string, before: seq<Option<string>>, identity: Model.IdentityService,
                                        after: seq<Option<string>>, res: Model.ResourceService,
                                        r: Option<Response.WasteSummary>)
  {
    FailFast.FirstErrorAppend(FailFast.OpeningSteps(before, identity), after);
    (r.Some? <==> Reaches(before, identity, after))
    && (r.Some? ==>
          var w := r.value;
          var stopped := if res.stoppedInstances.Success? then res.stoppedInstances.value
                         else Model.StoppedReport([], []);
          w.provider == provider && w.accountId == identity.accountInfo.value.accountId
          && Response.VolumesConverted(w.unusedVolumes, Listed(res.unusedVolumes))
          && Response.VolumesConverted(w.attachedVolumes, stopped.attachedVolumes)
          && Response.IPsConverted(w.unusedIPs, Listed(res.unusedIPs))
          && Response.InstancesConverted(w.stoppedInstances, stopped.instances)
          && Response.ReservationsConverted(w.expiringReservations, Listed(res.expiringReservations)))
  }

  method CollectWasteSummary(provider: string, before: seq<Option<string>>, identity: Model.IdentityService,
                             after: seq<Option<string>>, res: Model.ResourceService)
    returns (result: Option<Response.WasteSummary>)
    ensures WasteSummaryCollected(provider, before, identity, after, res, result)
  {
    FailFast.FirstErrorAppend(FailFast.OpeningSteps(before, identity), after);
    var accountId, err := FailFast.Open(before, identity);
    if err.Some? {
      return None;
    }
    err := FailFast.RunSteps(after);
    if err.Some? {
      return None;
    }
    var unusedVolumes := Listed(res.unusedVolumes);
    var unusedIPs := Listed(res.unusedIPs);
    var stopped := if res.stoppedInstances.Success? then res.stoppedInstances.value else Model.StoppedReport([], []);
    var expiringReservations := Listed(res.expiringReservations);
    var volumes := Response.ConvertUnusedVolumes(unusedVolumes);
    var attached := Response.ConvertUnusedVolumes(stopped.attachedVolumes);
    var ips := Response.ConvertUnusedIPs(unusedIPs);
    var instances := Response.ConvertStoppedInstances(stopped.instances);
    var reservations := Response.ConvertReservations(expiringReservations);
    return Some(Response.WasteSummary(provider, accountId, volumes, attached, ips, instances, reservations));
  }

  /** The providers the waste tool queries: AWS always, GCP with a project, Azure with a subscription. */
  function WasteProviders(gcpProjectID: string, azureSubscriptionID: string): (names: set<string>)
    ensures "aws" in names
    ensures "gcp" in names <==> gcpProjectID != ""
    ensures "azure" in names <==> azureSubscriptionID != ""
    ensures names <= {"aws", "gcp", "azure"}
  {
    {"aws"} + (if gcpProjectID != "" then {"gcp"} else {}) + (if azureSubscriptionID != "" then {"azure"} else {})
  }

  /** Whether provider p's waste collector returns a summary. */
  ghost predicate WasteReturned(env: Model.Environment, p: string)
  {
    var e := Model.EnvOf(env, p);
    Reaches(Before(p, e), e.identity, WasteAfter(p, e))
  }

  ghost predicate WasteWorker(env: Model.Environment, p: string, r: Response.WasteSummary)
  {
    var e := Model.EnvOf(env, p);
    r.provider == p && WasteSummaryCollected(p, Before(p, e), e.identity, WasteAfter(p, e), e.resource, Some(r))
  }

  /** One waste collector, run against provider p's own clients. */
  method WasteCollector(p: string, env: Model.Environment) returns (r: Option<Response.WasteSummary>)
    ensures r.Some? <==> WasteReturned(env, p)
    ensures r.Some? ==> WasteWorker(env, p, r.value)
  {
    var e := Model.EnvOf(env, p);
    r := CollectWasteSummary(p, Before(p, e), e.identity, WasteAfter(p, e), e.resource);
  }

  /** Launches provider p's waste collector; its summary joins the finished ones only when it returns one. */
  method AddWasteCollector(finished: map<string, Response.WasteSummary>, p: string, env: Model.Environment)
    returns (finished': map<string, Response.WasteSummary>)
    requires forall q :: q in finished ==> finished[q].provider == q && WasteWorker(env, q, finished[q])
    ensures forall q :: q in finished' <==> q in finished || (q == p && WasteReturned(env, p))
    ensures forall q :: q in finished' ==> finished'[q].provider == q && WasteWorker(env, q, finished'[q])
  {
    var r := WasteCollector(p, env);
    finished' := finished;
    if r.Some? {
      finished' := finished[p := r.value];
    }
  }

  method LaunchWasteCollectors(gcpProjectID: string, azureSubscriptionID: string, env: Model.Environment)
    returns (finished: map<string, Response.WasteSummary>)
    ensures finished.Keys <= {"aws", "gcp", "azure"}
    ensures "aws" in finished <==> WasteReturned(env, "aws")
    ensures "gcp" in finished <==> gcpProjectID != "" && WasteReturned(env, "gcp")
    ensures "azure" in finished <==> azureSubscriptionID != "" && WasteReturned(env, "azure")
    ensures forall p :: p in finished ==> finished[p].provider == p && WasteWorker(env, p, finished[p])
  {
    Model.ProviderNamesDistinct();
    finished := AddWasteCollector(map[], "aws", env);
    if gcpProjectID != "" {
      finished := AddWasteCollector(finished, "gcp", env);
    }
    if azureSubscriptionID != "" {
      finished := AddWasteCollector(finished, "azure", env);
    }
  }

  /**
   * multicloud_get_waste_summary: one summary per queried provider whose
   * collector got past identity, in the order the collectors finished;
   * providers that failed earlier are silently absent.
   */
  method WasteSummaryHandler(gcpProjectID: string, azureSubscriptionID: string, env: Model.Environment)
    returns (resp: Response.MultiCloudWasteSummary)
    ensures var names := set r | r in resp.providers :: WasteProvider(r);
            && names <= WasteProviders(gcpProjectID, azureSubscriptionID)
            && ("aws" in names <==> WasteReturned(env, "aws"))
            && ("gcp" in names <==> gcpProjectID != "" && WasteReturned(env, "gcp"))
            && ("azure" in names <==> azureSubscriptionID != "" && WasteReturned(env, "azure"))
    ensures forall i, j :: 0 <= i < j < |resp.providers| ==> resp.providers[i].provider != resp.providers[j].provider
    ensures forall i :: 0 <= i < |resp.providers| ==> WasteWorker(env, resp.providers[i].provider, resp.providers[i])
  {
    var finished := LaunchWasteCollectors(gcpProjectID, azureSubscriptionID, env);
    var order, results := FanOut.Arrive(finished);
    FanOut.ArrivedProviders(finished, order, results, WasteProvider);
    resp := Response.MultiCloudWasteSummary(results);
  }
}
