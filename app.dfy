// The CLI entry point (app.go): dispatch on --provider, the single-provider
// runs (flag validation, client construction, wiring the orchestrator's
// capabilities) and the multi-provider runs, whose collectors fill a result
// record step by step and stop at the first error.
module App {
  import opened Wrappers
  import Model
  import FailFast
  import Orchestrator
  import MultiCloudTables
  import FanOut

  /** The clients a run constructs, in order. */
  datatype Client = ConfigClient | IdentityClient | CostClient | ComputeClient


  const ProjectRequired := "--project flag is required for GCP provider"
  const BillingRequired := "--billing-account flag is required for GCP cost analysis\n\nTo find your billing account ID:\n  gcloud billing accounts list\n\nUsage:\n  cloud-doctor --provider gcp --project PROJECT_ID --billing-account billingAccounts/XXXXXX-XXXXXX-XXXXXX"
  const SubscriptionRequired := "--subscription flag is required for Azure provider\n\nTo find your subscription ID:\n  az account list --output table\n\nUsage:\n  cloud-doctor --provider azure --subscription SUBSCRIPTION_ID"

  method RunAWS(flags: Model.Flags, e: Model.ProviderEnv)
    returns (err: Option<string>, caps: Option<Orchestrator.Capabilities>, trace: seq<Orchestrator.Call>,
             report: Option<Orchestrator.Report>)
    ensures e.config.Some? ==> err == e.config && caps.None?
    ensures e.config.None? ==> caps == Some(AwsCapabilities(e))
    ensures caps.None? ==> trace == [] && report.None?
    ensures caps.Some? ==>
      (Orchestrator.Wired(flags, caps.value)
       && Orchestrator.RanFailFast(caps.value, Orchestrator.SelectWorkflow(flags), trace, err)
       && (report.Some? <==> err.None?))
  {
    if e.config.Some? {
      return e.config, None, [], None;
    }
    caps := Some(AwsCapabilities(e));
    err, trace, report := Orchestrator.Orchestrate(flags, caps.value);
  }

  /**
   * The flags are checked before any client is built; the waste path gives
   * the orchestrator no cost service, the cost paths no resource service.
   */
  method RunGCP(flags: Model.Flags, e: Model.ProviderEnv)
    returns (err: Option<string>, created: seq<Client>, caps: Option<Orchestrator.Capabilities>,
             trace: seq<Orchestrator.Call>, report: Option<Orchestrator.Report>)
    ensures flags.project == "" ==> err == Some(ProjectRequired) && created == []
    ensures flags.project != "" && flags.billingAccount == "" && !flags.waste ==>
      err == Some(BillingRequired) && created == []
    ensures flags.project != "" && (flags.billingAccount != "" || flags.waste) ==>
      |created| >= 1 && created[..1] == [IdentityClient]
      && (e.identityClient.Some? ==> err == Some("failed to create GCP identity service: " + e.identityClient.value))
    ensures flags.project != "" && flags.waste && e.identityClient.None? ==>
      created == [IdentityClient, ComputeClient]
      && (e.computeClient.Some? ==> err == Some("failed to create GCP compute service: " + e.computeClient.value))
      && (e.computeClient.None? ==> caps == Some(Orchestrator.Capabilities(e.identity, None, Some(e.resource))))
    ensures flags.project != "" && flags.billingAccount != "" && !flags.waste && e.identityClient.None? ==>
      created == [IdentityClient, CostClient]
      && (e.costClient.Some? ==> err == Some("failed to create GCP billing service: " + e.costClient.value))
      && (e.costClient.None? ==> caps == Some(Orchestrator.Capabilities(e.identity, Some(e.cost), None)))
    ensures caps.None? ==> err.Some? && trace == [] && report.None?
    ensures caps.Some? ==>
      (Orchestrator.Wired(flags, caps.value)
       && Orchestrator.RanFailFast(caps.value, Orchestrator.SelectWorkflow(flags), trace, err)
       && (report.Some? <==> err.None?))
  {
    created, caps, trace, report := [], None, [], None;
    if flags.project == "" {
      return Some(ProjectRequired), created, caps, trace, report;
    }
    if flags.billingAccount == "" && !flags.waste {
      return Some(BillingRequired), created, caps, trace, report;
    }
    created := created + [IdentityClient];
    if e.identityClient.Some? {
      return Some("failed to create GCP identity service: " + e.identityClient.value), created, caps, trace, report;
    }
    if flags.waste {
      created := created + [ComputeClient];
      if e.computeClient.Some? {
        return Some("failed to create GCP compute service: " + e.computeClient.value), created, caps, trace, report;
      }
      caps := Some(Orchestrator.Capabilities(e.identity, None, Some(e.resource)));
      err, trace, report := Orchestrator.Orchestrate(flags, caps.value);
      return;
    }
    created := created + [CostClient];
    if e.costClient.Some? {
      return Some("failed to create GCP billing service: " + e.costClient.value), created, caps, trace, report;
    }
    caps := Some(Orchestrator.Capabilities(e.identity, Some(e.cost), None));
    err, trace, report := Orchestrator.Orchestrate(flags, caps.value);
  }

  method RunAzure(flags: Model.Flags, e: Model.ProviderEnv)
    returns (err: Option<string>, created: seq<Client>, caps: Option<Orchestrator.Capabilities>,
             trace: seq<Orchestrator.Call>, report: Option<Orchestrator.Report>)
    ensures flags.subscription == "" ==> err == Some(SubscriptionRequired) && created == []
    ensures flags.subscription != "" ==>
      |created| >= 1 && created[..1] == [ConfigClient]
      && (e.config.Some? ==> err == Some("failed to create Azure config: " + e.config.value))
    ensures flags.subscription != "" && e.config.None? ==>
      |created| >= 2 && created[..2] == [ConfigClient, IdentityClient]
      && (e.identityClient.Some? ==> err == Some("failed to create Azure identity service: " + e.identityClient.value))
    ensures flags.subscription != "" && e.config.None? && e.identityClient.None? && flags.waste ==>
      created == [ConfigClient, IdentityClient, ComputeClient]
      && (e.computeClient.Some? ==> err == Some("failed to create Azure compute service: " + e.computeClient.value))
      && (e.computeClient.None? ==> caps == Some(Orchestrator.Capabilities(e.identity, None, Some(e.resource))))
    ensures flags.subscription != "" && e.config.None? && e.identityClient.None? && !flags.waste ==>
      created == [ConfigClient, IdentityClient, CostClient]
      && (e.costClient.Some? ==> err == Some("failed to create Azure cost management service: " + e.costClient.value))
      && (e.costClient.None? ==> caps == Some(Orchestrator.Capabilities(e.identity, Some(e.cost), None)))
    ensures caps.None? ==> err.Some? && trace == [] && report.None?
    ensures caps.Some? ==>
      (Orchestrator.Wired(flags, caps.value)
       && Orchestrator.RanFailFast(caps.value, Orchestrator.SelectWorkflow(flags), trace, err)
       && (report.Some? <==> err.None?))
  {
    created, caps, trace, report := [], None, [], None;
    if flags.subscription == "" {
      return Some(SubscriptionRequired), created, caps, trace, report;
    }
    created := created + [ConfigClient];
    if e.config.Some? {
      return Some("failed to create Azure config: " + e.config.value), created, caps, trace, report;
    }
    created := created + [IdentityClient];
    if e.identityClient.Some? {
      return Some("failed to create Azure identity service: " + e.identityClient.value), created, caps, trace, report;
    }
    if flags.waste {
      created := created + [ComputeClient];
      if e.computeClient.Some? {
        return Some("failed to create Azure compute service: " + e.computeClient.value), created, caps, trace, report;
      }
      caps := Some(Orchestrator.Capabilities(e.identity, None, Some(e.resource)));
      err, trace, report := Orchestrator.Orchestrate(flags, caps.value);
      return;
    }
    created := created + [CostClient];
    if e.costClient.Some? {
      return Some("failed to create Azure cost management service: " + e.costClient.value), created, caps, trace, report;
    }
    caps := Some(Orchestrator.Capabilities(e.identity, Some(e.cost), None));
    err, trace, report := Orchestrator.Orchestrate(flags, caps.value);
  }

  /** The constructors a cost or trend collector runs before asking for identity, in source order. */
  function CostSetup(provider: string, e: Model.ProviderEnv): seq<Option<string>>
  {
    if provider == "gcp" then [e.identityClient, e.costClient]
    else if provider == "azure" then [e.config, e.identityClient, e.costClient]
    else [e.config]
  }

  /** The constructors a waste collector runs before asking for identity, in source order. */
  function WasteSetup(provider: string, e: Model.ProviderEnv): seq<Option<string>>
  {
    if provider == "gcp" then [e.identityClient, e.computeClient]
    else if provider == "azure" then [e.config, e.identityClient, e.computeClient]
    else [e.config]
  }

  /** A cost collector's data steps after identity, in source order. */
  function CostSteps(cost: Model.CostService): seq<Option<string>>
  {
    [FailFast.ErrorOf(cost.currentMonthByService), FailFast.ErrorOf(cost.lastMonthByService),
     FailFast.ErrorOf(cost.currentMonthTotal), FailFast.ErrorOf(cost.lastMonthTotal)]
  }

  /** The record a cost collector holds once its first `done` data steps have succeeded. */
  function CostRecord(provider: string, accountId: string, cost: Model.CostService, done: nat,
                      err: Option<string>): Model.ProviderCostResult
    requires done <= 4 && forall i :: 0 <= i < done ==> CostSteps(cost)[i].None?
  {
    assert done > 0 ==> CostSteps(cost)[0].None?;
    assert done > 1 ==> CostSteps(cost)[1].None?;
    assert done > 2 ==> CostSteps(cost)[2].None?;
    assert done > 3 ==> CostSteps(cost)[3].None?;
    Model.ProviderCostResult(provider, accountId,
      if done > 0 then Some(cost.currentMonthByService.value) else None,
      if done > 1 then Some(cost.lastMonthByService.value) else None,
      if done > 2 then cost.currentMonthTotal.value else "",
      if done > 3 then cost.lastMonthTotal.value else "",
      [], err)
  }

  /**
   * What a cost collector leaves in its record: the first error among its
   * steps (setup, identity, the two by-service months, the two totals), the
   * account ID once identity succeeded, and the output of every data step
   * that succeeded before that error. TrendData stays empty.
   */
  ghost predicate CostsCollected(provider: string, setup: seq<Option<string>>, identity: Model.IdentityService,
                                 cost: Model.CostService, r: Model.ProviderCostResult)
  {
    FailFast.PassedSucceeded(CostSteps(cost));
    var opening := FailFast.OpeningSteps(setup, identity);
    var identified := FailFast.FirstError(opening).None?;
    r == CostRecord(provider, if identified then identity.accountInfo.value.accountId else "", cost,
                    if identified then FailFast.Passed(CostSteps(cost)) else 0,
                    FailFast.FirstError(opening + CostSteps(cost)))
  }

  method CollectCosts(provider: string, setup: seq<Option<string>>, identity: Model.IdentityService,
                      cost: Model.CostService) returns (result: Model.ProviderCostResult)
    ensures CostsCollected(provider, setup, identity, cost, result)
  {
    ghost var rest := CostSteps(cost);
    FailFast.FirstErrorAppend(FailFast.OpeningSteps(setup, identity), rest);
    var accountId, err := FailFast.Open(setup, identity);
    if err.Some? {
      return Model.ProviderCostResult(provider, accountId, None, None, "", "", [], err);
    }
    if cost.currentMonthByService.Failure? {
      FailFast.FailsAt(rest, 0);
      return Model.ProviderCostResult(provider, accountId, None, None, "", "", [],
                                      Some(cost.currentMonthByService.error));
    }
    var currentMonthData := Some(cost.currentMonthByService.value);
    if cost.lastMonthByService.Failure? {
      FailFast.FailsAt(rest, 1);
      return Model.ProviderCostResult(provider, accountId, currentMonthData, None, "", "", [],
                                      Some(cost.lastMonthByService.error));
    }
    var lastMonthData := Some(cost.lastMonthByService.value);
    if cost.currentMonthTotal.Failure? {
      FailFast.FailsAt(rest, 2);
      return Model.ProviderCostResult(provider, accountId, currentMonthData, lastMonthData, "", "", [],
                                      Some(cost.currentMonthTotal.error));
    }
    var currentTotalCost := cost.currentMonthTotal.value;
    if cost.lastMonthTotal.Failure? {
      FailFast.FailsAt(rest, 3);
      return Model.ProviderCostResult(provider, accountId, currentMonthData, lastMonthData, currentTotalCost, "", [],
                                      Some(cost.lastMonthTotal.error));
    }
    FailFast.AllSucceed(rest);
    return Model.ProviderCostResult(provider, accountId, currentMonthData, lastMonthData, currentTotalCost,
                                    cost.lastMonthTotal.value, [], None);
  }

  /**
   * A cost record has no error exactly when every step succeeded, and then
   * every field is filled; the account ID survives any later failure.
   */
  lemma CostsErrorIffIncomplete(provider: string, setup: seq<Option<string>>, identity: Model.IdentityService,
                                cost: Model.CostService, r: Model.ProviderCostResult)
    requires CostsCollected(provider, setup, identity, cost, r)
    ensures r.error.None? <==>
      FailFast.FirstError(setup).None? && identity.accountInfo.Success?
      && cost.currentMonthByService.Success? && cost.lastMonthByService.Success?
      && cost.currentMonthTotal.Success? && cost.lastMonthTotal.Success?
    ensures r.error.None? ==>
      r.currentMonthData == Some(cost.currentMonthByService.value) && r.lastMonthData == Some(cost.lastMonthByService.value)
      && r.currentTotalCost == cost.currentMonthTotal.value && r.lastTotalCost == cost.lastMonthTotal.value
    ensures FailFast.FirstError(setup).None? && identity.accountInfo.Success? ==>
      r.accountId == identity.accountInfo.value.accountId
  {
    var opening := FailFast.OpeningSteps(setup, identity);
    var steps := CostSteps(cost);
    FailFast.FirstErrorAppend(opening, steps);
    assert steps[0] == FailFast.ErrorOf(cost.currentMonthByService) && steps[1] == FailFast.ErrorOf(cost.lastMonthByService)
      && steps[2] == FailFast.ErrorOf(cost.currentMonthTotal) && steps[3] == FailFast.ErrorOf(cost.lastMonthTotal);
    if FailFast.FirstError(opening).None? && FailFast.FirstError(steps).None? {
      FailFast.AllSucceed(steps);
    }
  }

  /** A trend collector's only data step after identity. */
  function TrendSteps(cost: Model.CostService): seq<Option<string>>
  {
    [FailFast.ErrorOf(cost.lastSixMonths)]
  }

  /** A trend collector sets only AccountID and TrendData, with the same first-error rule. */
  ghost predicate TrendCollected(provider: string, setup: seq<Option<string>>, identity: Model.IdentityService,
                                 cost: Model.CostService, r: Model.ProviderCostResult)
  {
    var opening := FailFast.OpeningSteps(setup, identity);
    var identified := FailFast.FirstError(opening).None?;
    r == Model.ProviderCostResult(provider, if identified then identity.accountInfo.value.accountId else "",
           None, None, "", "", if identified && cost.lastSixMonths.Success? then cost.lastSixMonths.value else [],
           FailFast.FirstError(opening + TrendSteps(cost)))
  }

  method CollectTrend(provider: string, setup: seq<Option<string>>, identity: Model.IdentityService,
                      cost: Model.CostService) returns (result: Model.ProviderCostResult)
    ensures TrendCollected(provider, setup, identity, cost, result)
  {
    ghost var rest := TrendSteps(cost);
    FailFast.FirstErrorAppend(FailFast.OpeningSteps(setup, identity), rest);
    var accountId, err := FailFast.Open(setup, identity);
    result := Model.ProviderCostResult(provider, accountId, None, None, "", "", [], err);
    if err.Some? {
      return;
    }
    if cost.lastSixMonths.Failure? {
      FailFast.FailsAt(rest, 0);
      result := result.(error := Some(cost.lastSixMonths.error));
      return;
    }
    result := result.(trendData := cost.lastSixMonths.value);
    FailFast.AllSucceed(rest);
  }

  /** A trend record has no error exactly when setup, identity and the six-month query all succeeded. */
  lemma TrendErrorIffIncomplete(provider: string, setup: seq<Option<string>>, identity: Model.IdentityService,
                                cost: Model.CostService, r: Model.ProviderCostResult)
    requires TrendCollected(provider, setup, identity, cost, r)
    ensures r.error.None? <==>
      FailFast.FirstError(setup).None? && identity.accountInfo.Success? && cost.lastSixMonths.Success?
    ensures r.error.None? ==> r.trendData == cost.lastSixMonths.value
  {
    FailFast.FirstErrorAppend(FailFast.OpeningSteps(setup, identity), TrendSteps(cost));
  }

  /** A waste collector's data steps after identity, in source order. */
  function WasteSteps(res: Model.ResourceService): seq<Option<string>>
  {
    [FailFast.ErrorOf(res.unusedIPs), FailFast.ErrorOf(res.unusedVolumes),
     FailFast.ErrorOf(res.stoppedInstances), FailFast.ErrorOf(res.expiringReservations)]
  }

  /** The record a waste collector holds once its first `done` data steps have succeeded. */
  function WasteRecord(provider: string, accountId: string, res: Model.ResourceService, done: nat,
                       err: Option<string>): Model.ProviderWasteResult
    requires done <= 4 && forall i :: 0 <= i < done ==> WasteSteps(res)[i].None?
  {
    assert done > 0 ==> WasteSteps(res)[0].None?;
    assert done > 1 ==> WasteSteps(res)[1].None?;
    assert done > 2 ==> WasteSteps(res)[2].None?;
    assert done > 3 ==> WasteSteps(res)[3].None?;
    Model.ProviderWasteResult(provider, accountId,
      if done > 1 then res.unusedVolumes.value else [],
      if done > 2 then res.stoppedInstances.value.attachedVolumes else [],
      if done > 0 then res.unusedIPs.value else [],
      if done > 2 then res.stoppedInstances.value.instances else [],
      if done > 3 then res.expiringReservations.value else [],
      err)
  }

  /**
   * What a waste collector leaves in its record, with the data steps in the
   * order IPs, volumes, stopped instances (with their volumes), reservations.
   */
  ghost predicate WasteCollected(provider: string, setup: seq<Option<string>>, identity: Model.IdentityService,
                                 res: Model.ResourceService, r: Model.ProviderWasteResult)
  {
    FailFast.PassedSucceeded(WasteSteps(res));
    var opening := FailFast.OpeningSteps(setup, identity);
    var identified := FailFast.FirstError(opening).None?;
    r == WasteRecord(provider, if identified then identity.accountInfo.value.accountId else "", res,
                     if identified then FailFast.Passed(WasteSteps(res)) else 0,
                     FailFast.FirstError(opening + WasteSteps(res)))
  }

  method CollectWaste(provider: string, setup: seq<Option<string>>, identity: Model.IdentityService,
                      res: Model.ResourceService) returns (result: Model.ProviderWasteResult)
    ensures WasteCollected(provider, setup, identity, res, result)
  {
    ghost var rest := WasteSteps(res);
    FailFast.FirstErrorAppend(FailFast.OpeningSteps(setup, identity), rest);
    var accountId, err := FailFast.Open(setup, identity);
    if err.Some? {
      return Model.ProviderWasteResult(provider, accountId, [], [], [], [], [], err);
    }
    if res.unusedIPs.Failure? {
      FailFast.FailsAt(rest, 0);
      return Model.ProviderWasteResult(provider, accountId, [], [], [], [], [], Some(res.unusedIPs.error));
    }
    var unusedIPs := res.unusedIPs.value;
    if res.unusedVolumes.Failure? {
      FailFast.FailsAt(rest, 1);
      return Model.ProviderWasteResult(provider, accountId, [], [], unusedIPs, [], [], Some(res.unusedVolumes.error));
    }
    var unusedVolumes := res.unusedVolumes.value;
    if res.stoppedInstances.Failure? {
      FailFast.FailsAt(rest, 2);
      return Model.ProviderWasteResult(provider, accountId, unusedVolumes, [], unusedIPs, [], [],
                                       Some(res.stoppedInstances.error));
    }
    var stopped := res.stoppedInstances.value;
    if res.expiringReservations.Failure? {
      FailFast.FailsAt(rest, 3);
      return Model.ProviderWasteResult(provider, accountId, unusedVolumes, stopped.attachedVolumes, unusedIPs,
                                       stopped.instances, [], Some(res.expiringReservations.error));
    }
    FailFast.AllSucceed(rest);
    return Model.ProviderWasteResult(provider, accountId, unusedVolumes, stopped.attachedVolumes, unusedIPs,
                                     stopped.instances, res.expiringReservations.value, None);
  }

  /**
   * A waste record has no error exactly when every step succeeded, and then
   * every list is the one its query returned.
   */
  lemma WasteErrorIffIncomplete(provider: string, setup: seq<Option<string>>, identity: Model.IdentityService,
                                res: Model.ResourceService, r: Model.ProviderWasteResult)
    requires WasteCollected(provider, setup, identity, res, r)
    ensures r.error.None? <==>
      FailFast.FirstError(setup).None? && identity.accountInfo.Success?
      && res.unusedIPs.Success? && res.unusedVolumes.Success?
      && res.stoppedInstances.Success? && res.expiringReservations.Success?
    ensures r.error.None? ==>
      r.unusedIPs == res.unusedIPs.value && r.unusedVolumes == res.unusedVolumes.value
      && r.stoppedInstances == res.stoppedInstances.value.instances
      && r.attachedVolumes == res.stoppedInstances.value.attachedVolumes
      && r.expiringReservations == res.expiringReservations.value
  {
    var opening := FailFast.OpeningSteps(setup, identity);
    var steps := WasteSteps(res);
    FailFast.FirstErrorAppend(opening, steps);
    assert steps[0] == FailFast.ErrorOf(res.unusedIPs) && steps[1] == FailFast.ErrorOf(res.unusedVolumes)
      && steps[2] == FailFast.ErrorOf(res.stoppedInstances) && steps[3] == FailFast.ErrorOf(res.expiringReservations);
    if FailFast.FirstError(opening).None? && FailFast.FirstError(steps).None? {
      FailFast.AllSucceed(steps);
    }
  }

  /** The providers `all` launches for costs and trends: AWS always, GCP with a project and a billing account, Azure with a subscription. */
  function CostProviders(flags: Model.Flags): (names: set<string>)
    ensures "aws" in names
    ensures "gcp" in names <==> flags.project != "" && flags.billingAccount != ""
    ensures "azure" in names <==> flags.subscription != ""
    ensures names <= {"aws", "gcp", "azure"}
  {
    {"aws"} + (if flags.project != "" && flags.billingAccount != "" then {"gcp"} else {})
      + (if flags.subscription != "" then {"azure"} else {})
  }

  /** The providers `all` launches for waste: AWS always, GCP with a project, Azure with a subscription. */
  function WasteProviders(flags: Model.Flags): (names: set<string>)
    ensures "aws" in names
    ensures "gcp" in names <==> flags.project != ""
    ensures "azure" in names <==> flags.subscription != ""
    ensures names <= {"aws", "gcp", "azure"}
  {
    {"aws"} + (if flags.project != "" then {"gcp"} else {})
      + (if flags.subscription != "" then {"azure"} else {})
  }

  /** The result a cost worker for provider p leaves, given what p's SDK answers. */
  ghost predicate CostWorker(env: Model.Environment, p: string, r: Model.ProviderCostResult)
  {
    var e := Model.EnvOf(env, p);
    r.provider == p && CostsCollected(p, CostSetup(p, e), e.identity, e.cost, r)
  }

  ghost predicate TrendWorker(env: Model.Environment, p: string, r: Model.ProviderCostResult)
  {
    var e := Model.EnvOf(env, p);
    r.provider == p && TrendCollected(p, CostSetup(p, e), e.identity, e.cost, r)
  }

  ghost predicate WasteWorker(env: Model.Environment, p: string, r: Model.ProviderWasteResult)
  {
    var e := Model.EnvOf(env, p);
    r.provider == p && WasteCollected(p, WasteSetup(p, e), e.identity, e.resource, r)
  }

  function CostProvider(r: Model.ProviderCostResult): string { r.provider }

  function WasteProvider(r: Model.ProviderWasteResult): string { r.provider }

  /** Copies the arrived results into a slice and sorts it by provider priority. */
  method SortCostArrivals(arrived: seq<Model.ProviderCostResult>) returns (results: seq<Model.ProviderCostResult>)
    requires forall i, j :: 0 <= i < j < |arrived| ==> CostProvider(arrived[i]) != CostProvider(arrived[j])
    requires forall i :: 0 <= i < |arrived| ==> CostProvider(arrived[i]) in {"aws", "gcp", "azure"}
    ensures forall x :: x in results <==> x in arrived
    ensures FanOut.Names(results, CostProvider) == MultiCloudTables.CanonicalOrder(set x | x in arrived :: CostProvider(x))
  {
    var a := new Model.ProviderCostResult[|arrived|](i requires 0 <= i < |arrived| => arrived[i]);
    assert a[..] == arrived;
    MultiCloudTables.SortProviderCostResults(a);
    results := a[..];
    FanOut.SortedArrivalIsCanonical(arrived, results, CostProvider);
  }

  /**
   * Waits for the workers, then sorts their results by provider priority:
   * each launched provider's result appears once, in the fixed display order.
   */
  method GatherCosts(finished: map<string, Model.ProviderCostResult>) returns (results: seq<Model.ProviderCostResult>)
    requires finished.Keys <= {"aws", "gcp", "azure"}
    requires forall p :: p in finished ==> finished[p].provider == p
    ensures forall i :: 0 <= i < |results| ==>
      results[i].provider in finished && results[i] == finished[results[i].provider]
    ensures FanOut.Names(results, CostProvider) == MultiCloudTables.CanonicalOrder(finished.Keys)
  {
    var order, arrived := FanOut.Arrive(finished);
    FanOut.ArrivedProviders(finished, order, arrived, CostProvider);
    forall i | 0 <= i < |arrived| ensures CostProvider(arrived[i]) in {"aws", "gcp", "azure"} {
      assert arrived[i] == finished[order[i]] && arrived[i].provider == order[i];
    }
    results := SortCostArrivals(arrived);
    forall i | 0 <= i < |results|
      ensures results[i].provider in finished && results[i] == finished[results[i].provider]
    {
      assert results[i] in arrived;
      var k :| 0 <= k < |arrived| && arrived[k] == results[i];
      assert arrived[k] == finished[order[k]] && arrived[k].provider == order[k];
    }
  }

  /** Copies the arrived results into a slice and sorts it by provider priority. */
  method SortWasteArrivals(arrived: seq<Model.ProviderWasteResult>) returns (results: seq<Model.ProviderWasteResult>)
    requires forall i, j :: 0 <= i < j < |arrived| ==> WasteProvider(arrived[i]) != WasteProvider(arrived[j])
    requires forall i :: 0 <= i < |arrived| ==> WasteProvider(arrived[i]) in {"aws", "gcp", "azure"}
    ensures forall x :: x in results <==> x in arrived
    ensures FanOut.Names(results, WasteProvider) == MultiCloudTables.CanonicalOrder(set x | x in arrived :: WasteProvider(x))
  {
    var a := new Model.ProviderWasteResult[|arrived|](i requires 0 <= i < |arrived| => arrived[i]);
    assert a[..] == arrived;
    MultiCloudTables.SortProviderWasteResults(a);
    results := a[..];
    FanOut.SortedArrivalIsCanonical(arrived, results, WasteProvider);
  }

  method GatherWaste(finished: map<string, Model.ProviderWasteResult>) returns (results: seq<Model.ProviderWasteResult>)
    requires finished.Keys <= {"aws", "gcp", "azure"}
    requires forall p :: p in finished ==> finished[p].provider == p
    ensures forall i :: 0 <= i < |results| ==>
      results[i].provider in finished && results[i] == finished[results[i].provider]
    ensures FanOut.Names(results, WasteProvider) == MultiCloudTables.CanonicalOrder(finished.Keys)
  {
    var order, arrived := FanOut.Arrive(finished);
    FanOut.ArrivedProviders(finished, order, arrived, WasteProvider);
    forall i | 0 <= i < |arrived| ensures WasteProvider(arrived[i]) in {"aws", "gcp", "azure"} {
      assert arrived[i] == finished[order[i]] && arrived[i].provider == order[i];
    }
    results := SortWasteArrivals(arrived);
    forall i | 0 <= i < |results|
      ensures results[i].provider in finished && results[i] == finished[results[i].provider]
    {
      assert results[i] in arrived;
      var k :| 0 <= k < |arrived| && arrived[k] == results[i];
      assert arrived[k] == finished[order[k]] && arrived[k].provider == order[k];
    }
  }

  /** Starts one cost worker per launched provider; the map holds each worker's result. */
  method LaunchCosts(flags: Model.Flags, env: Model.Environment) returns (finished: map<string, Model.ProviderCostResult>)
    ensures finished.Keys == CostProviders(flags)
    ensures forall p :: p in finished ==> CostWorker(env, p, finished[p])
  {
    var aws := CollectCosts("aws", CostSetup("aws", env.aws), env.aws.identity, env.aws.cost);
    finished := map["aws" := aws];
    if flags.project != "" && flags.billingAccount != "" {
      var gcp := CollectCosts("gcp", CostSetup("gcp", env.gcp), env.gcp.identity, env.gcp.cost);
      finished := finished["gcp" := gcp];
    }
    if flags.subscription != "" {
      var azure := CollectCosts("azure", CostSetup("azure", env.azure), env.azure.identity, env.azure.cost);
      finished := finished["azure" := azure];
    }
  }

  method LaunchTrend(flags: Model.Flags, env: Model.Environment) returns (finished: map<string, Model.ProviderCostResult>)
    ensures finished.Keys == CostProviders(flags)
    ensures forall p :: p in finished ==> TrendWorker(env, p, finished[p])
  {
    var aws := CollectTrend("aws", CostSetup("aws", env.aws), env.aws.identity, env.aws.cost);
    finished := map["aws" := aws];
    if flags.project != "" && flags.billingAccount != "" {
      var gcp := CollectTrend("gcp", CostSetup("gcp", env.gcp), env.gcp.identity, env.gcp.cost);
      finished := finished["gcp" := gcp];
    }
    if flags.subscription != "" {
      var azure := CollectTrend("azure", CostSetup("azure", env.azure), env.azure.identity, env.azure.cost);
      finished := finished["azure" := azure];
    }
  }

  method LaunchWaste(flags: Model.Flags, env: Model.Environment) returns (finished: map<string, Model.ProviderWasteResult>)
    ensures finished.Keys == WasteProviders(flags)
    ensures forall p :: p in finished ==> WasteWorker(env, p, finished[p])
  {
    var aws := CollectWaste("aws", WasteSetup("aws", env.aws), env.aws.identity, env.aws.resource);
    finished := map["aws" := aws];
    if flags.project != "" {
      var gcp := CollectWaste("gcp", WasteSetup("gcp", env.gcp), env.gcp.identity, env.gcp.resource);
      finished := finished["gcp" := gcp];
    }
    if flags.subscription != "" {
      var azure := CollectWaste("azure", WasteSetup("azure", env.azure), env.azure.identity, env.azure.resource);
      finished := finished["azure" := azure];
    }
  }

  /**
   * `all` without --trend or --waste: one cost worker per launched provider,
   * results sorted into the fixed display order, then the comparison table.
   * AWS is always launched, so the "no providers configured" error cannot occur.
   */
  method RunAllCosts(flags: Model.Flags, env: Model.Environment)
    returns (results: seq<Model.ProviderCostResult>, summary: MultiCloudTables.CostSummaryTable,
             sections: seq<Option<MultiCloudTables.Section>>)
    ensures |results| >= 1
    ensures FanOut.Names(results, CostProvider) == MultiCloudTables.CanonicalOrder(CostProviders(flags))
    ensures forall i :: 0 <= i < |results| ==> CostWorker(env, results[i].provider, results[i])
    ensures |summary.rows| == |results| && |sections| == |results|
    ensures summary.total.Some? <==> |results| > 1
    ensures forall i :: 0 <= i < |results| ==>
      MultiCloudTables.CostRowFor(results[i], summary.rows[i], MultiCloudTables.CurrencyAfter(results, i + 1))
      && MultiCloudTables.CostSectionFor(results[i], sections[i])
  {
    var finished := LaunchCosts(flags, env);
    results := GatherCosts(finished);
    assert |FanOut.Names(results, CostProvider)| >= 1;
    summary, sections := MultiCloudTables.DrawMultiCloudCostTable(results);
  }

  /** `all --trend`: the same launch and sort, then one six-month chart per provider. */
  method RunAllTrend(flags: Model.Flags, env: Model.Environment)
    returns (results: seq<Model.ProviderCostResult>, sections: seq<Option<MultiCloudTables.Section>>)
    ensures |results| >= 1
    ensures FanOut.Names(results, CostProvider) == MultiCloudTables.CanonicalOrder(CostProviders(flags))
    ensures forall i :: 0 <= i < |results| ==> TrendWorker(env, results[i].provider, results[i])
    ensures |sections| == |results|
    ensures forall i :: 0 <= i < |results| ==> MultiCloudTables.TrendSectionFor(results[i], sections[i])
  {
    var finished := LaunchTrend(flags, env);
    results := GatherCosts(finished);
    assert |FanOut.Names(results, CostProvider)| >= 1;
    sections := MultiCloudTables.DrawMultiCloudTrendChart(results);
  }

  /** `all --waste`: one waste worker per launched provider, sorted, then the waste table. */
  method RunAllWaste(flags: Model.Flags, env: Model.Environment)
    returns (results: seq<Model.ProviderWasteResult>, summary: MultiCloudTables.WasteSummaryTable,
             sections: seq<Option<MultiCloudTables.Section>>)
    ensures |results| >= 1
    ensures FanOut.Names(results, WasteProvider) == MultiCloudTables.CanonicalOrder(WasteProviders(flags))
    ensures forall i :: 0 <= i < |results| ==> WasteWorker(env, results[i].provider, results[i])
    ensures |summary.rows| == |results| && |sections| == |results|
    ensures summary.total.Some? <==> |results| > 1
    ensures forall i :: 0 <= i < |results| ==>
      MultiCloudTables.WasteRowFor(results[i], summary.rows[i])
      && MultiCloudTables.WasteSectionFor(results[i], sections[i])
  {
    var finished := LaunchWaste(flags, env);
    results := GatherWaste(finished);
    assert |FanOut.Names(results, WasteProvider)| >= 1;
    summary, sections := MultiCloudTables.DrawMultiCloudWasteTable(results);
  }

  /** What `all` draws, by mode. */
  datatype Display =
    | CostComparison(costResults: seq<Model.ProviderCostResult>, costSummary: MultiCloudTables.CostSummaryTable,
                     costSections: seq<Option<MultiCloudTables.Section>>)
    | TrendCharts(trendResults: seq<Model.ProviderCostResult>, trendSections: seq<Option<MultiCloudTables.Section>>)
    | WasteReport(wasteResults: seq<Model.ProviderWasteResult>, wasteSummary: MultiCloudTables.WasteSummaryTable,
                  wasteSections: seq<Option<MultiCloudTables.Section>>)

  /** `--provider all`: waste takes precedence over trend, and trend over the cost comparison; it never fails. */
  method RunAll(flags: Model.Flags, env: Model.Environment) returns (err: Option<string>, display: Display)
    ensures err.None?
    ensures flags.waste ==> display.WasteReport?
    ensures !flags.waste && flags.trend ==> display.TrendCharts?
    ensures !flags.waste && !flags.trend ==> display.CostComparison?
    ensures display.WasteReport? ==>
      FanOut.Names(display.wasteResults, WasteProvider) == MultiCloudTables.CanonicalOrder(WasteProviders(flags))
    ensures display.TrendCharts? ==>
      FanOut.Names(display.trendResults, CostProvider) == MultiCloudTables.CanonicalOrder(CostProviders(flags))
    ensures display.CostComparison? ==>
      FanOut.Names(display.costResults, CostProvider) == MultiCloudTables.CanonicalOrder(CostProviders(flags))
  {
    err := None;
    if flags.waste {
      var results, summary, sections := RunAllWaste(flags, env);
      return err, WasteReport(results, summary, sections);
    }
    if flags.trend {
      var results, sections := RunAllTrend(flags, env);
      return err, TrendCharts(results, sections);
    }
    var results, summary, sections := RunAllCosts(flags, env);
    display := CostComparison(results, summary, sections);
  }

  /** The process outcome: exit status and the line printed before exiting ("" when none). */
  datatype Exit = Exit(code: int, output: string)

  function UnknownProvider(provider: string): string
  {
    "Unknown provider: " + provider + ". Supported providers: aws, gcp, azure, all"
  }

  /** The capabilities the AWS run wires: all three services. */
  function AwsCapabilities(e: Model.ProviderEnv): Orchestrator.Capabilities
  {
    Orchestrator.Capabilities(e.identity, Some(e.cost), Some(e.resource))
  }

  /** main, after flag parsing: dispatch on --provider, then report any error and exit 1. */
  method Run(flags: Model.Flags, env: Model.Environment) returns (exit: Exit)
    ensures flags.provider !in {"aws", "gcp", "azure", "all"} ==> exit == Exit(1, UnknownProvider(flags.provider))
    ensures flags.provider == "all" ==> exit == Exit(0, "")
    ensures flags.provider in {"aws", "gcp", "azure"} ==>
      (exit.code == 0 && exit.output == "") || (exit.code == 1 && |exit.output| >= 7 && exit.output[..7] == "Error: ")
    ensures flags.provider == "aws" && env.aws.config.Some? ==> exit == Exit(1, "Error: " + env.aws.config.value)
    ensures flags.provider == "aws" && env.aws.config.None? ==>
      (exit.code == 0 <==> FailFast.FirstError(Orchestrator.CallErrors(AwsCapabilities(env.aws),
                              Orchestrator.WorkflowCalls(Orchestrator.SelectWorkflow(flags)))).None?)
    ensures flags.provider == "gcp" && flags.project == "" ==> exit == Exit(1, "Error: " + ProjectRequired)
    ensures flags.provider == "gcp" && flags.project != "" && flags.billingAccount == "" && !flags.waste ==>
      exit == Exit(1, "Error: " + BillingRequired)
    ensures flags.provider == "azure" && flags.subscription == "" ==> exit == Exit(1, "Error: " + SubscriptionRequired)
  {
    var err: Option<string>;
    if flags.provider == "aws" {
      var caps, trace, report;
      err, caps, trace, report := RunAWS(flags, env.aws);
    } else if flags.provider == "gcp" {
      var created, caps, trace, report;
      err, created, caps, trace, report := RunGCP(flags, env.gcp);
    } else if flags.provider == "azure" {
      var created, caps, trace, report;
      err, created, caps, trace, report := RunAzure(flags, env.azure);
    } else if flags.provider == "all" {
      var display;
      err, display := RunAll(flags, env);
    } else {
      return Exit(1, UnknownProvider(flags.provider));
    }
    if err.Some? {
      return Exit(1, "Error: " + err.value);
    }
    return Exit(0, "");
  }
}
