// The provider-neutral records every layer exchanges (model/cost.go,
// model/resource.go, model/flag.go) and the three capability contracts a
// provider implements (service/interfaces.go). A capability is modelled by
// the outcomes its calls return: what the cloud SDK would answer is an input.
module Model {
  import opened Wrappers

  datatype CostEntry = CostEntry(amount: real, unit: string)

  /** Cost per key (a service name, or "Total" in a trend record). */
  type CostGroup = map<string, CostEntry>

  /** Start and End are nil-able pointers in the source. */
  datatype CostInfo = CostInfo(start: Option<string>, end: Option<string>, group: CostGroup)

  datatype ServiceCost = ServiceCost(name: string, amount: real, unit: string)

  datatype AccountInfo = AccountInfo(provider: string, accountId: string, accountName: string)

  datatype UnusedVolume = UnusedVolume(id: string, sizeGB: int, status: string)

  datatype StoppedInstance = StoppedInstance(id: string, name: string, stoppedDays: int)

  datatype UnusedIP = UnusedIP(address: string, allocationId: string)

  datatype Reservation = Reservation(id: string, instanceType: string, status: string, daysUntilExpiry: int)

  datatype ProviderCostResult = ProviderCostResult(
    provider: string,
    accountId: string,
    currentMonthData: Option<CostInfo>,
    lastMonthData: Option<CostInfo>,
    currentTotalCost: string,
    lastTotalCost: string,
    trendData: seq<CostInfo>,
    error: Option<string>)

  datatype ProviderWasteResult = ProviderWasteResult(
    provider: string,
    accountId: string,
    unusedVolumes: seq<UnusedVolume>,
    attachedVolumes: seq<UnusedVolume>,
    unusedIPs: seq<UnusedIP>,
    stoppedInstances: seq<StoppedInstance>,
    expiringReservations: seq<Reservation>,
    error: Option<string>)

  datatype Flags = Flags(
    provider: string,
    trend: bool,
    waste: bool,
    region: string,
    profile: string,
    project: string,
    billingAccount: string,
    subscription: string)

  /** IdentityService.GetAccountInfo. */
  datatype IdentityService = IdentityService(accountInfo: Outcome<AccountInfo>)

  /** CostService: two by-service months, two formatted totals, the six-month trend. */
  datatype CostService = CostService(
    currentMonthByService: Outcome<CostInfo>,
    lastMonthByService: Outcome<CostInfo>,
    currentMonthTotal: Outcome<string>,
    lastMonthTotal: Outcome<string>,
    lastSixMonths: Outcome<seq<CostInfo>>)

  /** What ResourceService.GetStoppedInstances returns besides its error. */
  datatype StoppedReport = StoppedReport(instances: seq<StoppedInstance>, attachedVolumes: seq<UnusedVolume>)

  /** ResourceService: the four waste scans. */
  datatype ResourceService = ResourceService(
    unusedVolumes: Outcome<seq<UnusedVolume>>,
    unusedIPs: Outcome<seq<UnusedIP>>,
    stoppedInstances: Outcome<StoppedReport>,
    expiringReservations: Outcome<seq<Reservation>>)

  /** The sum of every amount in a cost group, in no particular key order. */
  ghost function MapTotal(g: CostGroup): real
    decreases |g|
  {
    if g == map[] then 0.0
    else
      var k :| k in g;
      g[k].amount + MapTotal(g - {k})
  }

  /** Any key can be taken out first: the total does not depend on the order of the keys. */
  lemma {:induction false} MapTotalRemove(g: CostGroup, k: string)
    requires k in g
    ensures MapTotal(g) == g[k].amount + MapTotal(g - {k})
    decreases |g|
  {
    var j :| j in g && MapTotal(g) == g[j].amount + MapTotal(g - {j});
    if j != k {
      MapTotalRemove(g - {j}, k);
      MapTotalRemove(g - {k}, j);
      assert g - {j} - {k} == g - {k} - {j};
    }
  }

  /**
   * What one provider's SDK would answer: the error (if any) of each client
   * constructor, and the answers of the three capabilities.
   */
  datatype ProviderEnv = ProviderEnv(
    config: Option<string>,
    identityClient: Option<string>,
    costClient: Option<string>,
    computeClient: Option<string>,
    identity: IdentityService,
    cost: CostService,
    resource: ResourceService)

  datatype Environment = Environment(aws: ProviderEnv, gcp: ProviderEnv, azure: ProviderEnv)

  /** The answers of the provider a result is for (AWS for any other name). */
  function EnvOf(env: Environment, provider: string): ProviderEnv
  {
    if provider == "gcp" then env.gcp else if provider == "azure" then env.azure else env.aws
  }

  /** The three provider names are different strings. */
  lemma ProviderNamesDistinct()
    ensures "aws" != "gcp" && "aws" != "azure" && "gcp" != "azure"
  {
    assert "aws"[0] != "gcp"[0] && "aws"[1] != "azure"[1] && "gcp"[0] != "azure"[0];
  }
}
