// cmd/mcp/tools/azure.go: the MCP server's Azure tools. Every tool but the
// subscription listing needs a subscription ID and refuses to run without
// one; the others build their clients, make their SDK calls in order and
// return the first failure as the tool's error. The SDK answers are those
// of Model.ProviderEnv; the subscription pager is a sequence of page reads.
module McpAzure {
  import opened Wrappers
  import opened Reads
  import Model
  import Response
  import FailFast
  import McpMultiCloud

  const SubscriptionRequired := "AZURE_SUBSCRIPTION_ID environment variable is required"
  const StateEnabled := "Enabled"
  const StateUnknown := "Unknown"

  // ---------------------------------------------------------------- subscription listing

  /** One entry of the subscriptions pager: every field may be missing. */
  datatype Subscription = Subscription(subscriptionId: Option<string>, displayName: Option<string>, state: Option<string>)

  /**
   * What the listing makes of one entry: nothing without an ID; otherwise
   * the display name defaults to the ID and the state to "Unknown", and
   * only an "Enabled" subscription is kept.
   */
  function EntryOf(sub: Subscription): seq<Response.AzureSubscription>
  {
    if sub.subscriptionId.None? then []
    else
      var id := sub.subscriptionId.value;
      var displayName := sub.displayName.GetOr(id);
      var state := sub.state.GetOr(StateUnknown);
      if state == StateEnabled then [Response.AzureSubscription(id, displayName, state)] else []
  }

  /** The listed subscriptions of a run of entries, in pager order. */
  function Listed(subs: seq<Subscription>): seq<Response.AzureSubscription>
  {
    if subs == [] then [] else Listed(subs[..|subs| - 1]) + EntryOf(subs[|subs| - 1])
  }

  /** The entry is listed: it has an ID and the state "Enabled". */
  predicate Enabled(sub: Subscription)
  {
    sub.subscriptionId.Some? && sub.state == Some(StateEnabled)
  }

  /** What an enabled entry is listed as. */
  function Shown(sub: Subscription): Response.AzureSubscription
    requires sub.subscriptionId.Some?
  {
    Response.AzureSubscription(sub.subscriptionId.value, sub.displayName.GetOr(sub.subscriptionId.value), StateEnabled)
  }

  /** Listing two runs one after the other lists the first run, then the second: pager order is kept. */
  lemma {:induction false} ListedAppend(a: seq<Subscription>, b: seq<Subscription>)
    ensures Listed(a + b) == Listed(a) + Listed(b)
    decreases |b|
  {
    if b == [] {
      assert a + b == a;
    } else {
      var init := b[..|b| - 1];
      assert (a + b)[..|a + b| - 1] == a + init;
      ListedAppend(a, init);
    }
  }

  /**
   * A subscription is listed exactly when some entry has an ID and the state
   * "Enabled"; it carries that ID, the entry's display name or else the ID,
   * and the state "Enabled". No entry yields more than one listing.
   */
  lemma {:induction false} ListedExactly(subs: seq<Subscription>, x: Response.AzureSubscription)
    ensures x in Listed(subs) <==> exists i :: 0 <= i < |subs| && Enabled(subs[i]) && x == Shown(subs[i])
    ensures |Listed(subs)| <= |subs|
  {
    if subs != [] {
      var init, last := subs[..|subs| - 1], subs[|subs| - 1];
      ListedExactly(init, x);
      if exists i :: 0 <= i < |subs| && Enabled(subs[i]) && x == Shown(subs[i]) {
        var i :| 0 <= i < |subs| && Enabled(subs[i]) && x == Shown(subs[i]);
        if i < |init| {
          assert init[i] == subs[i];
        }
      }
      if exists i :: 0 <= i < |init| && Enabled(init[i]) && x == Shown(init[i]) {
        var i :| 0 <= i < |init| && Enabled(init[i]) && x == Shown(init[i]);
        assert subs[i] == init[i];
      }
    }
  }

  /** The inner loop over one page's entries. */
  method ListPage(page: seq<Subscription>) returns (listed: seq<Response.AzureSubscription>)
    ensures listed == Listed(page)
  {
    listed := [];
    for j := 0 to |page|
      invariant listed == Listed(page[..j])
    {
      assert page[..j + 1][..j] == page[..j];
      var sub := page[j];
      if sub.subscriptionId.None? {
        continue;
      }
      var displayName := sub.subscriptionId.value;
      if sub.displayName.Some? {
        displayName := sub.displayName.value;
      }
      var state := StateUnknown;
      if sub.state.Some? {
        state := sub.state.value;
      }
      if state == StateEnabled {
        listed := listed + [Response.AzureSubscription(sub.subscriptionId.value, displayName, state)];
      }
    }
    assert page[..|page|] == page;
  }

  /**
   * The azure_list_subscriptions handler: a failed credential or client is
   * reported; a page that fails to load ends the listing with an error and
   * no partial list; otherwise every enabled subscription, in pager order.
   */
  method ListSubscriptions(credential: Option<string>, client: Option<string>, pages: seq<Read<seq<Subscription>>>)
    returns (r: Outcome<seq<Response.AzureSubscription>>)
    ensures credential.Some? ==> r == Failure("Failed to create Azure credential: " + credential.value)
    ensures credential.None? && client.Some? ==> r == Failure("Failed to create subscriptions client: " + client.value)
    ensures credential.None? && client.None? && FirstReadError(pages).Some? ==>
      r == Failure("Failed to list subscriptions: " + FirstReadError(pages).value)
    ensures credential.None? && client.None? && FirstReadError(pages).None? ==>
      r == Success(Listed(Flatten(Items(pages))))
  {
    if credential.Some? {
      return Failure("Failed to create Azure credential: " + credential.value);
    }
    if client.Some? {
      return Failure("Failed to create subscriptions client: " + client.value);
    }
    var subscriptions: seq<Response.AzureSubscription> := [];
    for i := 0 to |pages|
      invariant FirstReadError(pages[..i]).None?
      invariant subscriptions == Listed(Flatten(Items(pages[..i])))
    {
      match pages[i]
      case ReadError(e) =>
        ErrorStep(pages, i);
        return Failure("Failed to list subscriptions: " + e);
      case Item(page) =>
        PageStep(pages, i);
        ListedAppend(Flatten(Items(pages[..i])), page);
        var listed := ListPage(page);
        subscriptions := subscriptions + listed;
    }
    assert pages[..|pages|] == pages;
    return Success(subscriptions);
  }

  // ---------------------------------------------------------------- subscription-scoped tools

  /** A failed step's message, behind the text the handler puts before it. */
  function Failed(prefix: string, e: Option<string>): (m: Option<string>)
    ensures m.None? <==> e.None?
    ensures e.Some? ==> m == Some(prefix + e.value)
  {
    match e
    case None => None
    case Some(message) => Some(prefix + message)
  }

  /** The Azure config, then the named client, each reported by its own message. */
  function ClientSteps(e: Model.ProviderEnv, client: Option<string>, clientName: string): seq<Option<string>>
  {
    [Failed("Failed to create Azure config: ", e.config), Failed("Failed to create Azure " + clientName + ": ", client)]
  }

  /** When every step succeeded, each one did. */
  lemma NoneFailed(steps: seq<Option<string>>, k: nat)
    requires FailFast.FirstError(steps).None? && k < |steps|
    ensures steps[k].None?
  {
  }

  function InfoSteps(e: Model.ProviderEnv): seq<Option<string>>
  {
    ClientSteps(e, e.identityClient, "identity service")
      + [Failed("Failed to get subscription info: ", FailFast.ErrorOf(e.identity.accountInfo))]
  }

  /** azure_get_subscription_info: the subscription's account details. */
  method SubscriptionInfo(subscriptionId: string, e: Model.ProviderEnv) returns (r: Outcome<Response.AccountInfo>)
    ensures subscriptionId == "" ==> r == Failure(SubscriptionRequired)
    ensures subscriptionId != "" ==> (r.Failure? <==> FailFast.FirstError(InfoSteps(e)).Some?)
    ensures subscriptionId != "" && r.Failure? ==> r.error == FailFast.FirstError(InfoSteps(e)).value
    ensures r.Success? ==> (e.identity.accountInfo.Success?
      && r.value == Response.AccountInfo(e.identity.accountInfo.value.provider,
                                         e.identity.accountInfo.value.accountId, e.identity.accountInfo.value.accountName))
  {
    if subscriptionId == "" {
      return Failure(SubscriptionRequired);
    }
    var err := FailFast.RunSteps(InfoSteps(e));
    if err.Some? {
      return Failure(err.value);
    }
    NoneFailed(InfoSteps(e), 2);
    var info := Response.ConvertAccountInfo(Some(e.identity.accountInfo.value));
    return Success(info.value);
  }

  function CurrentCostSteps(e: Model.ProviderEnv): seq<Option<string>>
  {
    ClientSteps(e, e.costClient, "cost management service")
      + [Failed("Failed to get costs: ", FailFast.ErrorOf(e.cost.currentMonthByService))]
  }

  /** azure_get_current_month_costs: the current month's costs, converted. */
  method CurrentMonthCosts(subscriptionId: string, e: Model.ProviderEnv) returns (r: Outcome<Response.CostInfo>)
    ensures subscriptionId == "" ==> r == Failure(SubscriptionRequired)
    ensures subscriptionId != "" ==> (r.Failure? <==> FailFast.FirstError(CurrentCostSteps(e)).Some?)
    ensures subscriptionId != "" && r.Failure? ==> r.error == FailFast.FirstError(CurrentCostSteps(e)).value
    ensures r.Success? ==> (e.cost.currentMonthByService.Success?
      && Response.ConvertedFrom(r.value, e.cost.currentMonthByService.value)
      && r.value.total == Model.MapTotal(e.cost.currentMonthByService.value.group))
  {
    if subscriptionId == "" {
      return Failure(SubscriptionRequired);
    }
    var err := FailFast.RunSteps(CurrentCostSteps(e));
    if err.Some? {
      return Failure(err.value);
    }
    NoneFailed(CurrentCostSteps(e), 2);
    var converted := Response.ConvertCostInfo(Some(e.cost.currentMonthByService.value));
    return Success(converted.value);
  }

  function ComparisonSteps(e: Model.ProviderEnv): seq<Option<string>>
  {
    ClientSteps(e, e.costClient, "cost management service")
      + [Failed("Failed to get current month costs: ", FailFast.ErrorOf(e.cost.currentMonthByService)),
         Failed("Failed to get last month costs: ", FailFast.ErrorOf(e.cost.lastMonthByService))]
  }

  /** Both months converted, their difference, and the percentage change unless last month cost nothing. */
  ghost predicate Compared(c: Response.CostComparison, current: Model.CostInfo, last: Model.CostInfo)
  {
    Response.ConvertedFrom(c.currentMonth, current) && c.currentMonth.total == Model.MapTotal(current.group)
    && Response.ConvertedFrom(c.lastMonth, last) && c.lastMonth.total == Model.MapTotal(last.group)
    && c.difference == c.currentMonth.total - c.lastMonth.total
    && (c.lastMonth.total > 0.0 ==> c.percentChange * c.lastMonth.total == c.difference * 100.0)
    && (c.lastMonth.total <= 0.0 ==> c.percentChange == 0.0)
  }

  /** The comparison the handler builds from the two months it read. */
  method Compare(current: Model.CostInfo, last: Model.CostInfo) returns (c: Response.CostComparison)
    ensures Response.ConvertedFrom(c.currentMonth, current) && c.currentMonth.total == Model.MapTotal(current.group)
    ensures Response.ConvertedFrom(c.lastMonth, last) && c.lastMonth.total == Model.MapTotal(last.group)
    ensures c.difference == c.currentMonth.total - c.lastMonth.total
    ensures c.lastMonth.total > 0.0 ==> c.percentChange * c.lastMonth.total == c.difference * 100.0
    ensures c.lastMonth.total <= 0.0 ==> c.percentChange == 0.0
  {
    var currentCosts := Response.ConvertCostInfo(Some(current));
    var lastCosts := Response.ConvertCostInfo(Some(last));
    var comparison := McpMultiCloud.Comparison(currentCosts.value.total, lastCosts.value.total);
    c := Response.CostComparison(currentCosts.value, lastCosts.value, comparison.0, comparison.1);
  }

  /** azure_get_cost_comparison: the comparison of the current month with last month. */
  method CostComparison(subscriptionId: string, e: Model.ProviderEnv) returns (r: Outcome<Response.CostComparison>)
    ensures subscriptionId == "" ==> r == Failure(SubscriptionRequired)
    ensures subscriptionId != "" ==> (r.Failure? <==> FailFast.FirstError(ComparisonSteps(e)).Some?)
    ensures subscriptionId != "" && r.Failure? ==> r.error == FailFast.FirstError(ComparisonSteps(e)).value
    ensures r.Success? ==> (e.cost.currentMonthByService.Success? && e.cost.lastMonthByService.Success?
      && Compared(r.value, e.cost.currentMonthByService.value, e.cost.lastMonthByService.value))
  {
    if subscriptionId == "" {
      return Failure(SubscriptionRequired);
    }
    var err := FailFast.RunSteps(ComparisonSteps(e));
    if err.Some? {
      return Failure(err.value);
    }
    NoneFailed(ComparisonSteps(e), 2);
    NoneFailed(ComparisonSteps(e), 3);
    var current, last := e.cost.currentMonthByService.value, e.cost.lastMonthByService.value;
    var comparison := Compare(current, last);
    assert Compared(comparison, current, last);
    return Success(comparison);
  }

  function TrendSteps(e: Model.ProviderEnv): seq<Option<string>>
  {
    ClientSteps(e, e.costClient, "cost management service")
      + [Failed("Failed to get cost trend: ", FailFast.ErrorOf(e.cost.lastSixMonths))]
  }

  /** azure_get_cost_trend: the six-month series, converted with its summary. */
  method CostTrend(subscriptionId: string, e: Model.ProviderEnv) returns (r: Outcome<Response.CostTrend>)
    ensures subscriptionId == "" ==> r == Failure(SubscriptionRequired)
    ensures subscriptionId != "" ==> (r.Failure? <==> FailFast.FirstError(TrendSteps(e)).Some?)
    ensures subscriptionId != "" && r.Failure? ==> r.error == FailFast.FirstError(TrendSteps(e)).value
    ensures r.Success? ==> (e.cost.lastSixMonths.Success?
      && Response.TrendOf(r.value, e.cost.lastSixMonths.value))
  {
    if subscriptionId == "" {
      return Failure(SubscriptionRequired);
    }
    var err := FailFast.RunSteps(TrendSteps(e));
    if err.Some? {
      return Failure(err.value);
    }
    NoneFailed(TrendSteps(e), 2);
    var trend := Response.ConvertTrendData(e.cost.lastSixMonths.value);
    return Success(trend);
  }

  /** The compute client, then one resource call reported behind `failure`. */
  function ScanSteps<T>(e: Model.ProviderEnv, answer: Outcome<T>, failure: string): seq<Option<string>>
  {
    ClientSteps(e, e.computeClient, "compute service") + [Failed(failure, FailFast.ErrorOf(answer))]
  }

  /** azure_get_unused_volumes: the unattached managed disks, converted. */
  method UnusedVolumes(subscriptionId: string, e: Model.ProviderEnv) returns (r: Outcome<seq<Response.UnusedVolume>>)
    ensures subscriptionId == "" ==> r == Failure(SubscriptionRequired)
    ensures subscriptionId != "" ==>
      (r.Failure? <==> FailFast.FirstError(ScanSteps(e, e.resource.unusedVolumes, "Failed to get unused volumes: ")).Some?)
    ensures subscriptionId != "" && r.Failure? ==>
      r.error == FailFast.FirstError(ScanSteps(e, e.resource.unusedVolumes, "Failed to get unused volumes: ")).value
    ensures r.Success? ==> (e.resource.unusedVolumes.Success?
      && Response.VolumesConverted(r.value, e.resource.unusedVolumes.value))
  {
    if subscriptionId == "" {
      return Failure(SubscriptionRequired);
    }
    var steps := ScanSteps(e, e.resource.unusedVolumes, "Failed to get unused volumes: ");
    var err := FailFast.RunSteps(steps);
    if err.Some? {
      return Failure(err.value);
    }
    NoneFailed(steps, 2);
    var volumes := Response.ConvertUnusedVolumes(e.resource.unusedVolumes.value);
    return Success(volumes);
  }

  /** azure_get_unused_ips: the unassociated public IPs, converted. */
  method UnusedIPs(subscriptionId: string, e: Model.ProviderEnv) returns (r: Outcome<seq<Response.UnusedIP>>)
    ensures subscriptionId == "" ==> r == Failure(SubscriptionRequired)
    ensures subscriptionId != "" ==>
      (r.Failure? <==> FailFast.FirstError(ScanSteps(e, e.resource.unusedIPs, "Failed to get unused IPs: ")).Some?)
    ensures subscriptionId != "" && r.Failure? ==>
      r.error == FailFast.FirstError(ScanSteps(e, e.resource.unusedIPs, "Failed to get unused IPs: ")).value
    ensures r.Success? ==> e.resource.unusedIPs.Success? && Response.IPsConverted(r.value, e.resource.unusedIPs.value)
  {
    if subscriptionId == "" {
      return Failure(SubscriptionRequired);
    }
    var steps := ScanSteps(e, e.resource.unusedIPs, "Failed to get unused IPs: ");
    var err := FailFast.RunSteps(steps);
    if err.Some? {
      return Failure(err.value);
    }
    NoneFailed(steps, 2);
    var ips := Response.ConvertUnusedIPs(e.resource.unusedIPs.value);
    return Success(ips);
  }

  /** The stopped-instances tool's answer: the instances and the volumes attached to them. */
  datatype StoppedAnswer = StoppedAnswer(instances: seq<Response.StoppedInstance>, attachedVolumes: seq<Response.UnusedVolume>)

  /** azure_get_stopped_instances: the deallocated VMs and their disks, converted. */
  method StoppedInstances(subscriptionId: string, e: Model.ProviderEnv) returns (r: Outcome<StoppedAnswer>)
    ensures subscriptionId == "" ==> r == Failure(SubscriptionRequired)
    ensures subscriptionId != "" ==>
      (r.Failure? <==> FailFast.FirstError(ScanSteps(e, e.resource.stoppedInstances, "Failed to get stopped instances: ")).Some?)
    ensures subscriptionId != "" && r.Failure? ==>
      r.error == FailFast.FirstError(ScanSteps(e, e.resource.stoppedInstances, "Failed to get stopped instances: ")).value
    ensures r.Success? ==> (e.resource.stoppedInstances.Success?
      && Response.InstancesConverted(r.value.instances, e.resource.stoppedInstances.value.instances)
      && Response.VolumesConverted(r.value.attachedVolumes, e.resource.stoppedInstances.value.attachedVolumes))
  {
    if subscriptionId == "" {
      return Failure(SubscriptionRequired);
    }
    var steps := ScanSteps(e, e.resource.stoppedInstances, "Failed to get stopped instances: ");
    var err := FailFast.RunSteps(steps);
    if err.Some? {
      return Failure(err.value);
    }
    NoneFailed(steps, 2);
    var instances := Response.ConvertStoppedInstances(e.resource.stoppedInstances.value.instances);
    var attached := Response.ConvertUnusedVolumes(e.resource.stoppedInstances.value.attachedVolumes);
    return Success(StoppedAnswer(instances, attached));
  }

  /** azure_get_expiring_reservations: the expiring and recently expired reservations, converted. */
  method ExpiringReservations(subscriptionId: string, e: Model.ProviderEnv) returns (r: Outcome<seq<Response.Reservation>>)
    ensures subscriptionId == "" ==> r == Failure(SubscriptionRequired)
    ensures subscriptionId != "" ==>
      (r.Failure? <==> FailFast.FirstError(ScanSteps(e, e.resource.expiringReservations, "Failed to get expiring reservations: ")).Some?)
    ensures subscriptionId != "" && r.Failure? ==>
      r.error == FailFast.FirstError(ScanSteps(e, e.resource.expiringReservations, "Failed to get expiring reservations: ")).value
    ensures r.Success? ==> (e.resource.expiringReservations.Success?
      && Response.ReservationsConverted(r.value, e.resource.expiringReservations.value))
  {
    if subscriptionId == "" {
      return Failure(SubscriptionRequired);
    }
    var steps := ScanSteps(e, e.resource.expiringReservations, "Failed to get expiring reservations: ");
    var err := FailFast.RunSteps(steps);
    if err.Some? {
      return Failure(err.value);
    }
    NoneFailed(steps, 2);
    var reservations := Response.ConvertReservations(e.resource.expiringReservations.value);
    return Success(reservations);
  }

  // ---------------------------------------------------------------- waste summary

  /**
   * The waste summary's steps, in the order the handler takes them: config,
   * identity client, subscription info, compute client, then the volumes,
   * IPs, stopped instances and reservations scans.
   */
  function WasteSteps(e: Model.ProviderEnv): (steps: seq<Option<string>>)
    ensures |steps| == 8
  {
    [Failed("Failed to create Azure config: ", e.config),
     Failed("Failed to create Azure identity service: ", e.identityClient),
     Failed("Failed to get subscription info: ", FailFast.ErrorOf(e.identity.accountInfo)),
     Failed("Failed to create Azure compute service: ", e.computeClient),
     Failed("Failed to get unused volumes: ", FailFast.ErrorOf(e.resource.unusedVolumes)),
     Failed("Failed to get unused IPs: ", FailFast.ErrorOf(e.resource.unusedIPs)),
     Failed("Failed to get stopped instances: ", FailFast.ErrorOf(e.resource.stoppedInstances)),
     Failed("Failed to get expiring reservations: ", FailFast.ErrorOf(e.resource.expiringReservations))]
  }

  /** The summary of a run whose every step succeeded. */
  ghost predicate WasteReported(r: Response.WasteSummary, e: Model.ProviderEnv)
    requires e.identity.accountInfo.Success? && e.resource.unusedVolumes.Success? && e.resource.unusedIPs.Success?
    requires e.resource.stoppedInstances.Success? && e.resource.expiringReservations.Success?
  {
    r.provider == "azure"
    && r.accountId == e.identity.accountInfo.value.accountId
    && Response.VolumesConverted(r.unusedVolumes, e.resource.unusedVolumes.value)
    && Response.VolumesConverted(r.attachedVolumes, e.resource.stoppedInstances.value.attachedVolumes)
    && Response.IPsConverted(r.unusedIPs, e.resource.unusedIPs.value)
    && Response.InstancesConverted(r.stoppedInstances, e.resource.stoppedInstances.value.instances)
    && Response.ReservationsConverted(r.expiringReservations, e.resource.expiringReservations.value)
  }

  /**
   * azure_get_waste_summary: the first failing step's message, in the
   * handler's order; when none fails, every scan converted under the
   * subscription's account ID.
   */
  method WasteSummary(subscriptionId: string, e: Model.ProviderEnv) returns (r: Outcome<Response.WasteSummary>)
    ensures subscriptionId == "" ==> r == Failure(SubscriptionRequired)
    ensures subscriptionId != "" ==> (r.Failure? <==> FailFast.FirstError(WasteSteps(e)).Some?)
    ensures subscriptionId != "" && r.Failure? ==> r.error == FailFast.FirstError(WasteSteps(e)).value
    ensures r.Success? ==>
      e.identity.accountInfo.Success? && e.resource.unusedVolumes.Success? && e.resource.unusedIPs.Success?
      && e.resource.stoppedInstances.Success? && e.resource.expiringReservations.Success?
      && WasteReported(r.value, e)
  {
    if subscriptionId == "" {
      return Failure(SubscriptionRequired);
    }
    var steps := WasteSteps(e);
    var err := FailFast.RunSteps(steps);
    if err.Some? {
      return Failure(err.value);
    }
    NoneFailed(steps, 2);
    NoneFailed(steps, 4);
    NoneFailed(steps, 5);
    NoneFailed(steps, 6);
    NoneFailed(steps, 7);
    var stopped := e.resource.stoppedInstances.value;
    var volumes := Response.ConvertUnusedVolumes(e.resource.unusedVolumes.value);
    var attached := Response.ConvertUnusedVolumes(stopped.attachedVolumes);
    var ips := Response.ConvertUnusedIPs(e.resource.unusedIPs.value);
    var instances := Response.ConvertStoppedInstances(stopped.instances);
    var reservations := Response.ConvertReservations(e.resource.expiringReservations.value);
    return Success(Response.WasteSummary("azure", e.identity.accountInfo.value.accountId,
                                         volumes, attached, ips, instances, reservations));
  }

  /**
   * The waste summary stops at its first failing step: two runs whose steps
   * agree up to a failing one report the same error, whatever the later
   * calls would have answered.
   */
  lemma WasteStopsAtFirstFailure(e1: Model.ProviderEnv, e2: Model.ProviderEnv, k: nat)
    requires k < 8 && WasteSteps(e1)[..k + 1] == WasteSteps(e2)[..k + 1]
    requires WasteSteps(e1)[k].Some?
    ensures FailFast.FirstError(WasteSteps(e1)).Some?
    ensures FailFast.FirstError(WasteSteps(e1)) == FailFast.FirstError(WasteSteps(e2))
  {
    var prefix := WasteSteps(e1)[..k + 1];
    assert prefix[k].Some?;
    FailFast.FirstErrorPrefix(WasteSteps(e1), k + 1);
    FailFast.FirstErrorPrefix(WasteSteps(e2), k + 1);
  }
}
