// Single-provider orchestration (service/orchestrator/service.go): pick one
// of three workflows from the flags, make that workflow's calls in a fixed
// order, stop at the first error, and render only when every call succeeded.
// The calls are the provider-neutral capabilities app.go wires in; a call's
// answer is read from the capability record, and `trace` lists the calls made.
module Orchestrator {
  import opened Wrappers
  import Model
  import FailFast

  datatype Workflow = DefaultWorkflow | TrendWorkflow | WasteWorkflow

  /** Waste wins over trend, and trend over the default comparison. */
  function SelectWorkflow(flags: Model.Flags): (w: Workflow)
    ensures w == WasteWorkflow <==> flags.waste
    ensures w == TrendWorkflow <==> !flags.waste && flags.trend
    ensures w == DefaultWorkflow <==> !flags.waste && !flags.trend
  {
    if flags.waste then WasteWorkflow
    else if flags.trend then TrendWorkflow
    else DefaultWorkflow
  }

  datatype Call =
    | CurrentMonthByService | LastMonthByService | CurrentMonthTotal | LastMonthTotal | LastSixMonths
    | UnusedIPs | UnusedVolumes | StoppedInstances | ExpiringReservations
    | CallerIdentity

  predicate NeedsCost(c: Call)
  {
    c.CurrentMonthByService? || c.LastMonthByService? || c.CurrentMonthTotal? || c.LastMonthTotal? || c.LastSixMonths?
  }

  predicate NeedsResource(c: Call)
  {
    c.UnusedIPs? || c.UnusedVolumes? || c.StoppedInstances? || c.ExpiringReservations?
  }

  /** The calls of each workflow, in the order they are made. */
  function WorkflowCalls(w: Workflow): (calls: seq<Call>)
    ensures |calls| >= 2
    ensures calls[|calls| - 1] == CallerIdentity
    ensures forall i :: 0 <= i < |calls| - 1 ==> calls[i] != CallerIdentity
    ensures w == WasteWorkflow ==> forall c :: c in calls ==> !NeedsCost(c)
    ensures w != WasteWorkflow ==> forall c :: c in calls ==> !NeedsResource(c)
  {
    match w
    case DefaultWorkflow =>
      [CurrentMonthByService, LastMonthByService, CurrentMonthTotal, LastMonthTotal, CallerIdentity]
    case TrendWorkflow => [LastSixMonths, CallerIdentity]
    case WasteWorkflow => [UnusedIPs, UnusedVolumes, StoppedInstances, ExpiringReservations, CallerIdentity]
  }

  /** The services an orchestrator is built from; a nil service is None. */
  datatype Capabilities = Capabilities(
    identity: Model.IdentityService,
    cost: Option<Model.CostService>,
    resource: Option<Model.ResourceService>)

  predicate Provides(caps: Capabilities, c: Call)
  {
    (NeedsCost(c) ==> caps.cost.Some?) && (NeedsResource(c) ==> caps.resource.Some?)
  }

  /** The error a call returns, if any. */
  function CallError(caps: Capabilities, c: Call): (e: Option<string>)
    requires Provides(caps, c)
  {
    match c
    case CurrentMonthByService => FailFast.ErrorOf(caps.cost.value.currentMonthByService)
    case LastMonthByService => FailFast.ErrorOf(caps.cost.value.lastMonthByService)
    case CurrentMonthTotal => FailFast.ErrorOf(caps.cost.value.currentMonthTotal)
    case LastMonthTotal => FailFast.ErrorOf(caps.cost.value.lastMonthTotal)
    case LastSixMonths => FailFast.ErrorOf(caps.cost.value.lastSixMonths)
    case UnusedIPs => FailFast.ErrorOf(caps.resource.value.unusedIPs)
    case UnusedVolumes => FailFast.ErrorOf(caps.resource.value.unusedVolumes)
    case StoppedInstances => FailFast.ErrorOf(caps.resource.value.stoppedInstances)
    case ExpiringReservations => FailFast.ErrorOf(caps.resource.value.expiringReservations)
    case CallerIdentity => FailFast.ErrorOf(caps.identity.accountInfo)
  }

  /** The nil-ness the source relies on: only the service the chosen workflow uses must be present. */
  predicate Wired(flags: Model.Flags, caps: Capabilities)
  {
    (flags.waste ==> caps.resource.Some?) && (!flags.waste ==> caps.cost.Some?)
  }

  function CallErrors(caps: Capabilities, calls: seq<Call>): (errors: seq<Option<string>>)
    requires forall c :: c in calls ==> Provides(caps, c)
    ensures |errors| == |calls|
    ensures forall i :: 0 <= i < |calls| ==> errors[i] == CallError(caps, calls[i])
  {
    seq(|calls|, i requires 0 <= i < |calls| => CallError(caps, calls[i]))
  }

  /** What gets rendered once every call has succeeded. */
  datatype Report =
    | CostTableReport(accountId: string, lastTotal: string, currentTotal: string,
                      lastMonth: Model.CostInfo, currentMonth: Model.CostInfo)
    | TrendChartReport(accountId: string, months: seq<Model.CostInfo>)
    | WasteTableReport(accountId: string, unusedIPs: seq<Model.UnusedIP>, unusedVolumes: seq<Model.UnusedVolume>,
                       attachedVolumes: seq<Model.UnusedVolume>, reservations: seq<Model.Reservation>,
                       stoppedInstances: seq<Model.StoppedInstance>)

  /** The trace and error of a fail-fast run of `w`: the calls up to the first failure, and its message. */
  predicate RanFailFast(caps: Capabilities, w: Workflow, trace: seq<Call>, err: Option<string>)
    requires forall c :: c in WorkflowCalls(w) ==> Provides(caps, c)
  {
    var calls := WorkflowCalls(w);
    var errors := CallErrors(caps, calls);
    trace == calls[..FailFast.StepsRun(errors)] && err == FailFast.FirstError(errors)
  }

  method Orchestrate(flags: Model.Flags, caps: Capabilities)
    returns (err: Option<string>, trace: seq<Call>, report: Option<Report>)
    requires Wired(flags, caps)
    ensures forall c :: c in WorkflowCalls(SelectWorkflow(flags)) ==> Provides(caps, c)
    ensures RanFailFast(caps, SelectWorkflow(flags), trace, err)
    ensures report.Some? <==> err.None?
    ensures report.Some? ==> ReportMatches(SelectWorkflow(flags), caps, report.value)
  {
    if flags.waste {
      err, trace, report := WasteFlow(caps);
      return;
    }
    if flags.trend {
      err, trace, report := TrendFlow(caps);
      return;
    }
    err, trace, report := DefaultFlow(caps);
  }

  /** A rendered report carries exactly what the workflow's calls returned. */
  predicate ReportMatches(w: Workflow, caps: Capabilities, report: Report)
  {
    match w
    case DefaultWorkflow =>
      caps.cost.Some? && caps.identity.accountInfo.Success?
      && var cost := caps.cost.value;
      cost.currentMonthByService.Success? && cost.lastMonthByService.Success?
      && cost.currentMonthTotal.Success? && cost.lastMonthTotal.Success?
      && report == CostTableReport(caps.identity.accountInfo.value.accountId,
                                   cost.lastMonthTotal.value, cost.currentMonthTotal.value,
                                   cost.lastMonthByService.value, cost.currentMonthByService.value)
    case TrendWorkflow =>
      caps.cost.Some? && caps.identity.accountInfo.Success? && caps.cost.value.lastSixMonths.Success?
      && report == TrendChartReport(caps.identity.accountInfo.value.accountId, caps.cost.value.lastSixMonths.value)
    case WasteWorkflow =>
      caps.resource.Some? && caps.identity.accountInfo.Success?
      && var res := caps.resource.value;
      res.unusedIPs.Success? && res.unusedVolumes.Success?
      && res.stoppedInstances.Success? && res.expiringReservations.Success?
      && report == WasteTableReport(caps.identity.accountInfo.value.accountId,
                                    res.unusedIPs.value, res.unusedVolumes.value,
                                    res.stoppedInstances.value.attachedVolumes, res.expiringReservations.value,
                                    res.stoppedInstances.value.instances)
  }

  method DefaultFlow(caps: Capabilities) returns (err: Option<string>, trace: seq<Call>, report: Option<Report>)
    requires caps.cost.Some?
    ensures RanFailFast(caps, DefaultWorkflow, trace, err)
    ensures report.Some? <==> err.None?
    ensures report.Some? ==> ReportMatches(DefaultWorkflow, caps, report.value)
  {
    var cost := caps.cost.value;
    ghost var calls := WorkflowCalls(DefaultWorkflow);
    ghost var errors := CallErrors(caps, calls);
    assert errors[0] == FailFast.ErrorOf(cost.currentMonthByService) && errors[1] == FailFast.ErrorOf(cost.lastMonthByService)
      && errors[2] == FailFast.ErrorOf(cost.currentMonthTotal) && errors[3] == FailFast.ErrorOf(cost.lastMonthTotal)
      && errors[4] == FailFast.ErrorOf(caps.identity.accountInfo);
    trace := [CurrentMonthByService];
    if cost.currentMonthByService.Failure? {
      FailFast.FailsAt(errors, 0);
      return Some(cost.currentMonthByService.error), trace, None;
    }
    trace := trace + [LastMonthByService];
    if cost.lastMonthByService.Failure? {
      FailFast.FailsAt(errors, 1);
      return Some(cost.lastMonthByService.error), trace, None;
    }
    trace := trace + [CurrentMonthTotal];
    if cost.currentMonthTotal.Failure? {
      FailFast.FailsAt(errors, 2);
      return Some(cost.currentMonthTotal.error), trace, None;
    }
    trace := trace + [LastMonthTotal];
    if cost.lastMonthTotal.Failure? {
      FailFast.FailsAt(errors, 3);
      return Some(cost.lastMonthTotal.error), trace, None;
    }
    trace := trace + [CallerIdentity];
    if caps.identity.accountInfo.Failure? {
      FailFast.FailsAt(errors, 4);
      return Some(caps.identity.accountInfo.error), trace, None;
    }
    FailFast.AllSucceed(errors);
    err := None;
    report := Some(CostTableReport(caps.identity.accountInfo.value.accountId,
                                   cost.lastMonthTotal.value, cost.currentMonthTotal.value,
                                   cost.lastMonthByService.value, cost.currentMonthByService.value));
  }

  method TrendFlow(caps: Capabilities) returns (err: Option<string>, trace: seq<Call>, report: Option<Report>)
    requires caps.cost.Some?
    ensures RanFailFast(caps, TrendWorkflow, trace, err)
    ensures report.Some? <==> err.None?
    ensures report.Some? ==> ReportMatches(TrendWorkflow, caps, report.value)
  {
    var cost := caps.cost.value;
    ghost var errors := CallErrors(caps, WorkflowCalls(TrendWorkflow));
    trace := [LastSixMonths];
    if cost.lastSixMonths.Failure? {
      FailFast.FailsAt(errors, 0);
      return Some(cost.lastSixMonths.error), trace, None;
    }
    trace := trace + [CallerIdentity];
    if caps.identity.accountInfo.Failure? {
      FailFast.FailsAt(errors, 1);
      return Some(caps.identity.accountInfo.error), trace, None;
    }
    FailFast.AllSucceed(errors);
    err := None;
    report := Some(TrendChartReport(caps.identity.accountInfo.value.accountId, cost.lastSixMonths.value));
  }

  method WasteFlow(caps: Capabilities) returns (err: Option<string>, trace: seq<Call>, report: Option<Report>)
    requires caps.resource.Some?
    ensures RanFailFast(caps, WasteWorkflow, trace, err)
    ensures report.Some? <==> err.None?
    ensures report.Some? ==> ReportMatches(WasteWorkflow, caps, report.value)
  {
    var res := caps.resource.value;
    ghost var calls := WorkflowCalls(WasteWorkflow);
    ghost var errors := CallErrors(caps, calls);
    assert errors[0] == FailFast.ErrorOf(res.unusedIPs) && errors[1] == FailFast.ErrorOf(res.unusedVolumes)
      && errors[2] == FailFast.ErrorOf(res.stoppedInstances) && errors[3] == FailFast.ErrorOf(res.expiringReservations)
      && errors[4] == FailFast.ErrorOf(caps.identity.accountInfo);
    trace := [UnusedIPs];
    if res.unusedIPs.Failure? {
      FailFast.FailsAt(errors, 0);
      return Some(res.unusedIPs.error), trace, None;
    }
    trace := trace + [UnusedVolumes];
    if res.unusedVolumes.Failure? {
      FailFast.FailsAt(errors, 1);
      return Some(res.unusedVolumes.error), trace, None;
    }
    trace := trace + [StoppedInstances];
    if res.stoppedInstances.Failure? {
      FailFast.FailsAt(errors, 2);
      return Some(res.stoppedInstances.error), trace, None;
    }
    trace := trace + [ExpiringReservations];
    if res.expiringReservations.Failure? {
      FailFast.FailsAt(errors, 3);
      return Some(res.expiringReservations.error), trace, None;
    }
    trace := trace + [CallerIdentity];
    if caps.identity.accountInfo.Failure? {
      FailFast.FailsAt(errors, 4);
      return Some(caps.identity.accountInfo.error), trace, None;
    }
    FailFast.AllSucceed(errors);
    err := None;
    report := Some(WasteTableReport(caps.identity.accountInfo.value.accountId,
                                    res.unusedIPs.value, res.unusedVolumes.value,
                                    res.stoppedInstances.value.attachedVolumes, res.expiringReservations.value,
                                    res.stoppedInstances.value.instances));
  }

  /**
   * Identity is fetched last: it is among the calls made exactly when every
   * data call before it succeeded, and it is never made twice.
   */
  lemma IdentityCalledIffDataSucceeded(caps: Capabilities, w: Workflow, trace: seq<Call>, err: Option<string>)
    requires forall c :: c in WorkflowCalls(w) ==> Provides(caps, c)
    requires RanFailFast(caps, w, trace, err)
    ensures var calls := WorkflowCalls(w);
      CallerIdentity in trace <==> FailFast.FirstError(CallErrors(caps, calls)[..|calls| - 1]).None?
  {
    var calls := WorkflowCalls(w);
    var errors := CallErrors(caps, calls);
    FailFast.LastStepRuns(errors);
    var n := FailFast.StepsRun(errors);
    if n < |calls| {
      assert forall i :: 0 <= i < n ==> trace[i] == calls[i] && calls[i] != CallerIdentity;
    }
  }
}
