# cloud-doctor, modelled in Dafny

cloud-doctor is a command-line tool and an MCP server. It asks AWS, Google
Cloud and Azure for an account's spending and for the resources it is paying
for without using them. This model covers the engine behind both front ends:

- **Cost services.** AWS Cost Explorer, GCP billing export queries and Azure
  Cost Management. They give the month's cost by service, the month's total,
  and a six-month trend.
- **Waste services.** EC2/ELB, GCP Compute and Azure Compute. They find
  unattached volumes, unused IP addresses, stopped or deallocated machines and
  expiring reservations.
- **The orchestrator.** It picks the cost, trend or waste workflow and runs
  its calls fail-fast.
- **The single-provider and multi-provider runs** of the command line.
  Providers work concurrently; their results are sorted into AWS, GCP, Azure
  order and summed in the summary tables.
- **The MCP side.** The environment configuration, the Azure tools, the
  multi-cloud tools, and the conversion of results into response records.

Every call to a cloud SDK is a parameter: an abstract answer that is either a
value or an error, or a sequence of page reads. The model therefore covers
every error path the code handles. Go's standard-library behaviour is written
out where results depend on it:

- `strings.Split`, `strings.Fields`, `strings.ToLower` and `strconv.ParseFloat`
  on plain decimals;
- `"%.2f"` formatting, as round-half-even to cents;
- `time.AddDate` month normalisation;
- `int32` wrap-around;
- truncating day counts.

Goroutines become a loop that takes the finished providers in an arbitrary
order. The model proves that this order affects nothing the code sorts or
sums afterwards. It also shows the one thing the order does affect: the
MCP multi-cloud cost summary does not sort, so its currency depends on which
provider finished last.

The modules are:

- App (`app.go`);
- Orchestrator (`service/orchestrator`);
- AwsCostExplorer, GcpBilling, AzureCostManagement (the cost services);
- Ec2, Elb, GcpCompute, AzureCompute (the waste services);
- CostTable, MultiCloudTables, Barchart (the tables built by `utils`);
- Response (`cmd/mcp/response`);
- McpConfig, McpAzure, McpMultiCloud (`cmd/mcp`).

Shared modules:

- Wrappers;
- Strings, Numbers, Calendar, Sorting, Sums (the Go library behaviour the
  code relies on);
- Reads (paged SDK iterators);
- FailFast (sequences of calls that stop at the first error);
- FanOut (concurrent workers);
- TransitionDate (the EC2 stop-date scan of `utils/ec2.go`);
- Model (the records of `model/` and `service/interfaces.go`).

## Model

| member | source | states |
|---|---|---|
| App.RunAWS | app.go:58-73 | The AWS config error is returned before anything else. Otherwise the orchestrator is wired with the AWS identity, cost and resource services for the selected workflow and runs fail-fast. A report exists exactly when no call failed. |
| App.RunGCP | app.go:74-120 | A missing project, or (outside waste mode) a missing billing account, is an error before any client is made. The identity client is made first. Waste mode then makes the compute client and otherwise the billing client. Each constructor error carries its own message. The workflow runs only with every client made. |
| App.RunAzure | app.go:121-165 | A missing subscription is an error before any client is made. Config, identity, then compute (waste) or cost management (otherwise) are made in that order, and the first failure gives its own message. The workflow runs fail-fast only with every client made. |
| App.CollectCosts | app.go:337-387 | The collector of one provider's costs, as in collectAWSCosts, collectGCPCosts and collectAzureCosts. Its setup steps, the identity call and the four cost calls run in order and stop at the first error. The result records the steps that succeeded. |
| App.CostsErrorIffIncomplete | app.go:337-387 | A cost result has no error exactly when every setup step, the identity call and all four cost calls succeeded. It then carries the two months' service costs and totals. The account ID is set once the identity call succeeds. |
| App.CollectTrend | app.go:388-417 | The trend collector (collectAWSTrend and its GCP and Azure twins) runs setup, identity and the six-month query fail-fast. |
| App.TrendErrorIffIncomplete | app.go:388-417 | A trend result has no error exactly when setup, identity and the six-month query all succeeded. Its trend data is then the six-month answer. |
| App.CollectWaste | app.go:418-470 | The waste collector (collectAWSWaste and its twins) runs setup, identity, unused IPs, unused volumes, stopped instances and expiring reservations fail-fast. |
| App.WasteErrorIffIncomplete | app.go:418-470 | A waste result has no error exactly when every step succeeded. It then carries the four answers, with the stopped-instance answer split into instances and attached volumes. |
| App.CostProviders | app.go:185-217 | AWS always runs. GCP runs exactly when both a project and a billing account are given. Azure runs exactly when a subscription is given. |
| App.WasteProviders | app.go:284-320 | For waste, AWS always runs, GCP needs only a project, and Azure needs a subscription. |
| App.SortCostArrivals | app.go:226 | Sorting the arrived cost results keeps exactly the same results, and their providers come out in AWS, GCP, Azure order. |
| App.SortWasteArrivals | app.go:330 | The same for waste results. |
| App.GatherCosts | app.go:180-226 | Whatever order the workers finish in, the gathered results are the finished workers' own results, in canonical provider order. |
| App.GatherWaste | app.go:284-330 | The same for waste workers. |
| App.LaunchCosts | app.go:185-219 | Exactly the enabled cost providers finish, each with the result of its own collector. |
| App.LaunchTrend | app.go:237-271 | Exactly the enabled providers finish, each with its own trend collector's result. |
| App.LaunchWaste | app.go:289-323 | Exactly the enabled waste providers finish, each with its own waste collector's result. |
| App.RunAllCosts | app.go:180-231 | There is at least one result, in canonical provider order, each from its own collector. The summary has one row per result, and a total row exactly when more than one provider ran. Each row and detail section is derived from its result. |
| App.RunAllTrend | app.go:232-283 | There is at least one trend result, in canonical order. There is one chart section per result, derived from it. |
| App.RunAllWaste | app.go:284-336 | There is at least one waste result, in canonical order, with one summary row and one section per result, and a total row exactly when more than one provider ran. |
| App.RunAll | app.go:166-179 | Waste mode wins over trend mode, and trend mode wins over the cost comparison. The run never returns an error. What is displayed lists the enabled providers in canonical order. |
| App.Run | app.go:26-57 | An unknown provider exits with code 1 and the unknown-provider message. "all" exits with code 0. A single provider exits with code 0, or with code 1 and "Error: " followed by the message. The message is the one of the first failing call or of the first missing flag. |
| AwsCostExplorer.GroupAmount | service/aws/costexplorer/service.go:163-167 | A group without the metric, or with no amount, parses as nothing. Otherwise it parses as the metric's amount text. |
| AwsCostExplorer.Survivors | service/aws/costexplorer/service.go:160-172 | The filter keeps no more groups than it was given, and every kept group has an amount that parses and is non-zero. |
| AwsCostExplorer.SurvivorsAreResults | service/aws/costexplorer/service.go:162-172 | Every kept group is one of the input groups. |
| AwsCostExplorer.SurvivorsIdempotent | service/aws/costexplorer/service.go:160-172 | Filtering twice is filtering once. |
| AwsCostExplorer.KeepAll | service/aws/costexplorer/service.go:160-172 | Groups that all pass the filter are kept unchanged. |
| AwsCostExplorer.EntryOf | service/aws/costexplorer/service.go:180-187 | The entry of a kept group has a non-zero amount. |
| AwsCostExplorer.FilterGroups | service/aws/costexplorer/service.go:159-191 | filterGroups. It succeeds exactly when every kept group has a key and a unit, and the cost groups are then the kept groups keyed by their first key. Otherwise it panics: with the nil-dereference message when every kept group has a key, with the index-out-of-range message when every kept group has a unit. |
| AwsCostExplorer.KeepPriced | service/aws/costexplorer/service.go:160-172 | The first loop keeps exactly the groups whose amount parses and is non-zero, in order. |
| AwsCostExplorer.KeyByService | service/aws/costexplorer/service.go:174-190 | The second loop keys each kept group by its first key. It panics exactly when some group has no keys (`v.Keys[0]`) or no unit (`*…Unit`), and the message names whichever of the two is missing when only one kind is. |
| AwsCostExplorer.FirstKeysOfGroups | service/aws/costexplorer/service.go:181 | A service name is a first key exactly when some kept group has it as its first key. |
| AwsCostExplorer.GroupMapKeys | service/aws/costexplorer/service.go:179-188 | The map's services are exactly the first keys of the kept groups. |
| AwsCostExplorer.GroupMapAmounts | service/aws/costexplorer/service.go:168-188 | No service in the map has a zero amount. |
| AwsCostExplorer.LaterGroupOverwrites | service/aws/costexplorer/service.go:179-188 | When two groups share a first key, the later one wins. A group with no later namesake gives its own entry. |
| AwsCostExplorer.MonthTotalCosts | service/aws/costexplorer/service.go:122-149 | A call error is returned as is. The method completes (does not panic) exactly when there is a first period whose total parses, is non-zero and has a unit. It then succeeds. An empty answer panics with the index-out-of-range message, and every other panic is a nil dereference or "Could not parse total amount". |
| AwsCostExplorer.MonthTotalValue | service/aws/costexplorer/service.go:141-147 | For any unit, a non-zero parsed amount gives the total "%.2f unit" of that amount and unit. |
| AwsCostExplorer.MonthTotalReadsBack | service/aws/costexplorer/service.go:141-147 | The total is rendered as "%.2f unit". Reading it back gives the amount rounded to the cent, with "USD" standing in for an empty unit. |
| AwsCostExplorer.MonthCostsByService | service/aws/costexplorer/service.go:31-63 | A call error is returned as is. It completes exactly when there is a first period that has a time period and whose kept groups all have a key and a unit. It then returns that period's dates and filtered groups. An empty answer panics with index out of range. Once every kept group has a key, any panic is a nil dereference. |
| AwsCostExplorer.TrendRecord | service/aws/costexplorer/service.go:95-115 | A month's record has the single key "Total", holding the parsed total (zero if it does not parse) and its unit, with the period's dates. |
| AwsCostExplorer.LastSixMonthsCosts | service/aws/costexplorer/service.go:73-120 | A call error is returned as is. The method completes exactly when every period has an amount, a unit and a time period. It then gives one "Total" record per period, in order. Every panic is a nil dereference. |
| AzureCompute.ExtractResourceName | service/azure/compute/service.go:353-359 | The name is a suffix of the resource ID and holds no '/'. |
| AzureCompute.ResourceNameCases | service/azure/compute/service.go:353-359 | An ID without '/' is its own name. An ID that ends in '/' has the empty name. |
| AzureCompute.KeyIndexFrom | service/azure/compute/service.go:364-368 | A found key position is at or after the start and has a segment after it. |
| AzureCompute.KeyIndexIsFirst | service/azure/compute/service.go:364-368 | The position found is the first key position followed by a segment. When none is found, no position qualifies. |
| AzureCompute.SegmentAfterKey | service/azure/compute/service.go:364-369 | The loop returns the segment after the first qualifying key, or "" when there is none. |
| AzureCompute.ExtractResourceGroup | service/azure/compute/service.go:362-370 | The group is the segment after the first "resourceGroups" segment (compared case-insensitively) that has a successor. Otherwise it is "". |
| AzureCompute.ListWhere | service/azure/compute/service.go:76-95 | The pager loop fails with "failed to list <what>: " and the first page error. Otherwise it returns the items of every page that pass the test, in order. |
| AzureCompute.UnattachedDisks | service/azure/compute/service.go:75-96 | A page error gives "failed to list disks: ". Otherwise the result is exactly the disks whose state is Unattached, in order. |
| AzureCompute.UnusedVolumes | service/azure/compute/service.go:47-72 | The same error. Otherwise there is one volume per unattached disk, in order, with status "available". |
| AzureCompute.UnusedIPs | service/azure/compute/service.go:220-266 | A page error gives "failed to list public IPs: ". Otherwise there is one record per public IP that has properties and no IP configuration, in order. |
| AzureCompute.HasDeallocatedStatus | service/azure/compute/service.go:199-207 | A VM is deallocated exactly when some status code starts with "PowerState/deallocated". |
| AzureCompute.DeallocatedOnPage | service/azure/compute/service.go:179-211 | The VMs kept from one page are exactly those with an ID, a readable instance view and a deallocated status, in order. |
| AzureCompute.DeallocatedVMs | service/azure/compute/service.go:165-216 | A page error gives "failed to list VMs: ". Otherwise the result is the deallocated VMs of every page, in order. |
| AzureCompute.AttachedStep | service/azure/compute/service.go:111-159 | Each VM appends its own volumes to the attached volumes. |
| AzureCompute.AttachedVolumesShape | service/azure/compute/service.go:126-158 | Every attached volume has status "attached_stopped" and a name without '/'. |
| AzureCompute.DataVolumesShape | service/azure/compute/service.go:144-157 | The same for the data-disk volumes. |
| AzureCompute.DataDiskVolumes | service/azure/compute/service.go:144-157 | The data-disk loop gives one volume per managed data disk with an ID, in order. |
| AzureCompute.VMVolumes | service/azure/compute/service.go:126-158 | A VM's volumes are its OS disk (when managed with an ID), then its data disks. |
| AzureCompute.StoppedInstanceOf | service/azure/compute/service.go:112-123 | A deallocated VM is reported under its name as both ID and name, with -1 stopped days. |
| AzureCompute.StoppedInstances | service/azure/compute/service.go:102-162 | A VM listing error is returned. Otherwise there is one instance per deallocated VM, in order, and the attached volumes are those of the deallocated VMs. |
| AzureCompute.ReportOf | service/azure/compute/service.go:108-161 | The report loop gives one instance per VM and all their volumes. |
| AzureCompute.ReservedInstances | service/azure/compute/service.go:330-348 | A page error is not an error. The orders read before the first failed page are returned. |
| AzureCompute.OneRecordPerOrder | service/azure/compute/service.go:298-323 | An order gives at most one record. It is "expiring" with 0 to 29 days left, or "expired" with -29 to 0 days. |
| AzureCompute.ClassifiedLength | service/azure/compute/service.go:282-324 | There are never more reservation records than orders. |
| AzureCompute.ClassifiedStep | service/azure/compute/service.go:282-324 | Each order appends its own records. |
| AzureCompute.AppendOrderRecords | service/azure/compute/service.go:283-323 | One pass of the loop appends that order's records. |
| AzureCompute.ExpiringReservations | service/azure/compute/service.go:270-327 | The result is the classified records of every order listed before the first failed page, in order. |
| AzureCostManagement.Billed | service/azure/costmanagement/service.go:77-88 | A row counts exactly when it has at least two columns, a number then a text, and a positive cost. It then gives the service name and the cost. |
| AzureCostManagement.ServiceTotals | service/azure/costmanagement/service.go:72-101 | Every service in the map has a positive amount in "USD". |
| AzureCostManagement.ServiceTotalIsSum | service/azure/costmanagement/service.go:88-98 | A service is in the map exactly when some row bills it. Its amount is then the sum of its rows. A service absent from the map has no billed cost. |
| AzureCostManagement.AddServiceRow | service/azure/costmanagement/service.go:76-100 | A row that does not count changes nothing. A row that counts adds its cost to its service's amount (0 when the service is new), in "USD". |
| AzureCostManagement.SumServices | service/azure/costmanagement/service.go:72-101 | The row loop builds exactly the per-service totals. |
| AzureCostManagement.MonthCostsByService | service/azure/costmanagement/service.go:35-110 | A query error gives "failed to query costs: ". Otherwise the period runs from the first of the month to the end date, with the per-service totals. |
| AzureCostManagement.ColumnTotalOfCredits | service/azure/costmanagement/service.go:151-161 | Rows that hold only credits (costs of zero or less) give a total of zero or less and no service at all. The total row sums every cost, the by-service view only positive ones. |
| AzureCostManagement.SumFirstColumn | service/azure/costmanagement/service.go:151-161 | The loop sums the first column of every row whose first column is a number. |
| AzureCostManagement.MonthTotalCosts | service/azure/costmanagement/service.go:122-165 | A query error gives "failed to query total costs: ". Otherwise the result is the summed column rendered as "%.2f USD". |
| AzureCostManagement.MonthTotalReadsBack | service/azure/costmanagement/service.go:163 | Reading back the total gives the sum rounded to the cent, in "USD". |
| AzureCostManagement.LastMomentOfMonth | service/azure/costmanagement/service.go:242-244 | The last moment of the month is its last day at 23:59:59. |
| AzureCostManagement.TrendMonth | service/azure/costmanagement/service.go:173-174 | The first day of the month of `now.AddDate(0, -monthsAgo, 0)`. That is monthsAgo months back when now's day exists in that month, and one month later otherwise. |
| AzureCostManagement.IntendedTrendMonth | service/azure/costmanagement/service.go:172-174 | The month the loop evidently means: exactly monthsAgo months back. Different counts give distinct months, exactly their difference apart. |
| AzureCostManagement.TrendMonthOfMonthsBefore | service/azure/costmanagement/service.go:173-174 | The queried month is the intended one exactly when now's day exists in the intended month. |
| AzureCostManagement.TrendMonthsOnDecember31 | service/azure/costmanagement/service.go:172-175 | On 31 December 2024 the six queries ask for July, July, August, October, October and December. |
| AzureCostManagement.AnsweredMonths | service/azure/costmanagement/service.go:172-201 | Only months whose query answered are listed, and each is among the months asked so far. |
| AzureCostManagement.OneRecordPerAnsweredMonth | service/azure/costmanagement/service.go:197-232 | There is one record per month that answered. A failed month is skipped, not recorded as zero. |
| AzureCostManagement.AnsweredMonthsOldestFirst | service/azure/costmanagement/service.go:172 | The recorded months go from the oldest to the newest. |
| AzureCostManagement.AllMonthsAnswered | service/azure/costmanagement/service.go:172-233 | When every query answers, the months are 6, 5, down to 1 months ago. |
| AzureCostManagement.MonthRecord | service/azure/costmanagement/service.go:203-232 | A month's record spans the first to the last day of the AddDate month (TrendMonth) and holds one "Total" entry: the summed costs in "USD". |
| AzureCostManagement.LastSixMonthsCosts | service/azure/costmanagement/service.go:168-236 | The records are exactly one trend record per answered query, in query order, each dated by TrendMonth. So on a 29th to 31st a month can repeat and another be missing. |
| AzureCostManagement.QueryMonth | service/azure/costmanagement/service.go:173-232 | One pass of the loop extends the records by the AddDate month asked, when its query answered. |
| AzureCostManagement.AnsweredStep | service/azure/costmanagement/service.go:197-201 | A month is added to the answered list exactly when its query succeeded. |
| AzureCostManagement.RecordsExtend | service/azure/costmanagement/service.go:226-232 | Appending a month's record keeps the records matched to their months. |
| Barchart.ColorRank | utils/barchart.go:14-21 | Each palette colour stands for its rank. Any other colour stands for "no colour". |
| Barchart.ColorAt | utils/barchart.go:93-95 | Ranks below six get their palette colour, and every other rank gets none. |
| Barchart.RankIn | utils/barchart.go:91-92 | A month's rank is the place of its index in the sorted slice. |
| Barchart.PermutationRanks | utils/barchart.go:78-88 | Sorting the indexed totals (a permutation) keeps every month exactly once, each with its own "Total". |
| Barchart.RankedColours | utils/barchart.go:90-98 | Colouring by rank uses each palette colour at most once and uses every colour up to the number of months. A better colour never goes to a month with a smaller total. |
| Barchart.AssignRankedColors | utils/barchart.go:70-99 | assignRankedColors: one colour slot per month. The six largest totals get the six colours in order, the rest get none, and larger totals never get worse colours. |
| Calendar.AddDate | service/azure/costmanagement/service.go:173 | Go's AddDate(0, k, 0): the same day k months on when that day exists. Otherwise the date overflows into the next month by the surplus days. |
| Calendar.MonthsBefore | service/azure/costmanagement/service.go:173 | The intended "k months back": exactly k months earlier, with the day clamped to the month's length. |
| Calendar.AddDateAgreesWhenDayFits | service/aws/costexplorer/service.go:27 | Go's AddDate agrees with the clamped month step exactly when the day exists in the target month. |
| Calendar.LastMonthOnMarch31 | service/aws/costexplorer/service.go:26-29 | On 31 March 2024, AddDate(0, -1, 0) gives 2 March, still in March. The intended answer is 29 February. |
| Calendar.AddDateBackFromDecember31 | service/azure/costmanagement/service.go:172-175 | The six dates AddDate gives from 31 December 2024: a 31st rolls over past June, September and November. |
| Calendar.SixMonthsBackOnDecember31 | service/azure/costmanagement/service.go:172-175 | On 31 December 2024 the six-month loop asks for July, July, August, October, October, December. |
| Calendar.MonthsBeforeConsecutive | service/azure/costmanagement/service.go:172-174 | Going back i and j months lands exactly j - i months apart, so the six trend months are distinct and consecutive. |
| Calendar.FirstDayOfMonth | service/aws/costexplorer/service.go:151-153 | The first day of the date's month, at midnight. |
| Calendar.LastDayOfMonth | service/aws/costexplorer/service.go:155-157 | A day in the same month that is no earlier than the date. |
| Calendar.LastDayIsDayBeforeNextMonth | service/aws/costexplorer/service.go:155-157 | Day 0 of the next month is the day before the next month's first, and no day of the month comes after it. |
| Calendar.MonthPeriod | service/aws/costexplorer/service.go:32-40 | A month's query runs from the first of the end date's month to the end date. |
| Calendar.LastMonthEnd | service/aws/costexplorer/service.go:26-29 | The end date of "last month" is `now.AddDate(0, -1, 0)`. It is the clamped date one month back when now's day exists in the previous month. Otherwise it is an earlier day of the current month. |
| Calendar.TrendWindow | service/aws/costexplorer/service.go:74-82 | The trend window runs from the first of the month of `now.AddDate(0, -6, 0)` to the first of this month. It spans six months when now's day exists six months back, and five otherwise. |
| Calendar.TrendWindowOnAugust31 | service/aws/costexplorer/service.go:74-82 | On 31 August 2024 the window starts on 1 March, five months back, where the clamped date six months back is 29 February. |
| Calendar.FormatDateMonthPrefix | cmd/mcp/response/convert.go:120-123 | A "2006-01-02" date has ten characters, and its first seven are "2006-01". |
| CostTable.OrderCostServices | utils/cost_table.go:69-84 | There is one service line per cost-group key with that key's amount and unit, ordered by amount from largest to smallest. |
| CostTable.PopulateFirstRow | utils/cost_table.go:86-115 | The first row is produced (no panic) exactly when both totals start with a number and the current total has a unit. The current total's parse error panics first, with its own message. The row shows both totals and their difference in the current unit. It is marked rising exactly when the difference is positive. |
| CostTable.FirstRowOfFormattedTotals | utils/cost_table.go:86-115 | For totals the cost services rendered, the first row never panics. Its difference is the difference of the cent-rounded totals, and it rises exactly when the current total has more cents. |
| CostTable.SplitFormattedTotal | utils/cost_table.go:87-88 | Splitting a rendered total at the space gives the "%.2f" amount and the unit. |
| CostTable.LastMonthEntry | utils/cost_table.go:121 | The last-month entry of a service is its own entry, or the zero entry when the service was not billed last month. |
| CostTable.PopulateRow | utils/cost_table.go:117-140 | A service's row shows its current and last-month amounts and the difference in the current unit. It is marked rising exactly when the current amount is larger. |
| CostTable.DrawCostTable | utils/cost_table.go:15-67 | The table is drawn exactly when both months have their dates and the first row does not panic. It starts with the totals row, followed by one row per current-month service in non-increasing order of amount. The headers carry each month's dates. |
| CostTable.ListedRows | utils/cost_table.go:38-42 | Rows built from the ordered services list exactly the current month's services, largest first, each compared with last month. |
| Ec2.NoRuleMeansDefault | service/ec2/service.go:212-272 | When no pattern occurs in the description, the interface type stays "interface". |
| Ec2.FirstRuleDecides | service/ec2/service.go:212-272 | When a rule is the first whose pattern (or alternative pattern) occurs, its type is the answer. |
| Ec2.ChainIsRuleTable | service/ec2/service.go:212-272 | The if-chain of getResourceTypeFromDescription is the ordered rule table, first match wins. |
| Ec2.DescriptionTypeIsFirstRule | service/ec2/service.go:212-272 | The type of a lower-cased description is the type of the first rule that occurs in it, or "interface" when none does. |
| Ec2.RedshiftBeforeRds | service/ec2/service.go:212-272 | A description mentioning "redshift" is never typed as an RDS database, because redshift is tested first. |
| Ec2.AllocationIds | service/ec2/service.go:35 | One allocation ID per address, with "" for a missing one. |
| Ec2.ElasticIpInfoShape | service/ec2/service.go:33-66 | When every address resolves, there is one attached-IP record per address, and the unused list is the allocation IDs of the addresses without an association. Otherwise the error is one address's lookup error. |
| Ec2.AddAddress | service/ec2/service.go:34-60 | One pass of the loop fails with the interface lookup's error, or appends the address's record and, when it is unassociated, its allocation ID. |
| Ec2.ElasticIpAddressesInfo | service/ec2/service.go:25-67 | A DescribeAddresses error is returned. Otherwise the loop's result is the addresses' info, stopping at the first failed interface lookup. |
| Ec2.ElasticIpFailureStays | service/ec2/service.go:48-50 | Once an interface lookup fails, the addresses after it do not change the result. |
| Ec2.UnusedElasticIpAddresses | service/ec2/service.go:69-84 | A call error is returned. Otherwise the result is exactly the addresses without an association, in order. |
| Ec2.VolumeIdsAppend | service/ec2/service.go:122-128 | The volume IDs of two runs of instances are those of the first run followed by those of the second. |
| Ec2.MappingIdsCover | service/ec2/service.go:124-128 | Every EBS mapping contributes its volume ID. |
| Ec2.VolumeIdsCoverAll | service/ec2/service.go:122-128 | Every EBS mapping of every stopped instance contributes its volume ID, whether or not the instance has been stopped for long. |
| Ec2.CollectVolumeIds | service/ec2/service.go:124-128 | The mapping loop collects the IDs of exactly the EBS mappings, in order. |
| Ec2.ScanReservation | service/ec2/service.go:123-137 | The instance loop collects every instance's volume IDs and keeps exactly the instances whose transition reason parses to a date more than 30 days ago. |
| Ec2.StoppedInstancesInfo | service/ec2/service.go:102-155 | A DescribeInstances error is returned. Otherwise the long-stopped instances of every reservation are kept. Volumes are described only when some ID was collected, and that call's error is returned. |
| Ec2.RiRecordsCases | service/ec2/service.go:178-206 | A reserved instance gives at most two records: "EXPIRING SOON" when active with less than 30 days left, and "RECENTLY EXPIRED" when it ended in the last 30 days. An active one that ended in the last 30 days gives both. |
| Ec2.RiWasteLength | service/ec2/service.go:178-207 | There are at most two records per reserved instance. |
| Ec2.AppendRiRecords | service/ec2/service.go:179-206 | One pass of the loop appends that instance's records. |
| Ec2.ReservedInstanceWaste | service/ec2/service.go:157-210 | A call error is returned. Otherwise the result is every instance's records, in order. |
| Elb.ArnSet | service/elb/service.go:30-36 | The set holds exactly the ARNs listed. |
| Elb.UsedArnsUnion | service/elb/service.go:30-36 | An ARN is used exactly when some target group lists it. |
| Elb.CollectUsedArns | service/elb/service.go:30-36 | The nested loop collects exactly the used ARNs. |
| Elb.UnusedLoadBalancers | service/elb/service.go:19-53 | A load-balancer listing error is returned first, then a target-group error. Otherwise the result is the orphaned load balancers, in order. |
| Elb.OrphanedExactly | service/elb/service.go:38-50 | A load balancer is reported exactly when it is an application or network balancer that no target group lists. |
| FailFast.ErrorOf | service/orchestrator/service.go:34-37 | A call's error is present exactly when the call failed. |
| FailFast.FirstError | service/orchestrator/service.go:33-63 | There is no error exactly when every step succeeded. Otherwise the error is one of the steps' errors. |
| FailFast.StepsRun | service/orchestrator/service.go:33-63 | No more steps run than there are, and the first one always runs. |
| FailFast.FirstErrorAppend | service/orchestrator/service.go:33-63 | Running two sequences in turn fails where the first fails, or else where the second fails. |
| FailFast.FirstErrorPrefix | service/orchestrator/service.go:33-63 | Steps after the first failure cannot change the error returned. |
| FailFast.RunSteps | service/orchestrator/service.go:33-63 | The sequence of early returns gives the first error. |
| FailFast.FailsAt | service/orchestrator/service.go:33-63 | When step k is the first to fail, exactly k + 1 steps run, k pass, and the error is step k's. |
| FailFast.AllSucceed | service/orchestrator/service.go:33-63 | When no step fails, every step runs and there is no error. |
| FailFast.LastStepRuns | service/orchestrator/service.go:54-57 | The last step runs exactly when every step before it succeeded. |
| FailFast.PassedSucceeded | app.go:337-386 | The steps counted as passed all succeeded, and the step after them, if any, failed. |
| FailFast.FirstFailing | service/orchestrator/service.go:33-63 | When some step fails there is a first failing step. |
| FailFast.OpeningSteps | app.go:340-355 | A collector's opening steps succeed exactly when its setup and its identity call do. |
| FailFast.Open | app.go:340-355 | The account ID is set exactly when setup and identity succeed. The error is the first among the opening steps. |
| FanOut.Arrive | app.go:185-219 | Each finished worker's result is appended exactly once, in some order, with no provider twice. |
| FanOut.ArrivedProviders | app.go:185-219 | The appended results have distinct providers, and their providers are exactly the finished ones. |
| FanOut.Names | utils/multicloud.go:283-288 | The providers of the results, in order. |
| FanOut.OccursAtMostOnce | app.go:185-219 | Results with distinct providers occur at most once each. |
| FanOut.DistinctProvidersPermuted | utils/multicloud.go:283-288 | Sorting keeps the providers distinct. |
| FanOut.SortedArrivalIsCanonical | utils/multicloud.go:283-288 | Sorting the arrived results by provider priority keeps the same results and lists their providers in canonical order, whatever the arrival order. |
| FanOut.NamesCoverArrived | utils/multicloud.go:283-288 | The sorted names are exactly the providers that arrived. |
| GcpBilling.TableSuffix | service/gcp/billing/service.go:50-51 | The billing account's table suffix contains no '-'. |
| GcpBilling.NoPrefixToRemove | service/gcp/billing/service.go:50 | An account ID without '/' has no "billingAccounts/" to remove. |
| GcpBilling.TableSuffixOfAccount | service/gcp/billing/service.go:50-51 | "billingAccounts/ID" and the bare ID give the same suffix: the ID with every '-' turned into '_', character for character. |
| GcpBilling.ByServiceKeys | service/gcp/billing/service.go:97-103 | A service is in the map exactly when some row names it. |
| GcpBilling.LastRowWins | service/gcp/billing/service.go:97-103 | A row with no later namesake gives its service's entry: its cost and its currency. |
| GcpBilling.MonthCostsByService | service/gcp/billing/service.go:42-113 | A query error gives "failed to execute BigQuery query: " and a row error "failed to read BigQuery row: ". Otherwise the period runs from the first of the month to the end date, with the rows keyed by service. |
| GcpBilling.ServiceRows | service/gcp/billing/service.go:80-104 | The row loop stops at the first read error. Without one it keys every row by its service. |
| GcpBilling.MonthTotalCosts | service/gcp/billing/service.go:125-180 | The same two errors. Otherwise the result is "%.2f currency", with the sum of all rows and the last row's currency. |
| GcpBilling.TotalRows | service/gcp/billing/service.go:157-176 | The loop stops at the first read error. Without one it sums every row's cost and keeps the last currency. |
| GcpBilling.NoRowsTotal | service/gcp/billing/service.go:157-178 | A month without rows renders as "0.00 " (zero and an empty currency). |
| GcpBilling.NoRowsTotalReadsBack | service/gcp/billing/service.go:178 | That total reads back as zero "USD". |
| GcpBilling.TotalIgnoresRowOrder | service/gcp/billing/service.go:174 | The summed cost does not depend on the order of the rows. |
| GcpBilling.LastSixMonthsCosts | service/gcp/billing/service.go:183-254 | The same two errors. Otherwise there is one record per row, in order, with the row's month dates and a single "Total" entry of its cost and currency. |
| GcpCompute.ExtractResourceName | service/gcp/compute/service.go:292-300 | The backward scan returns the text after the last '/', or the whole URL when there is none. |
| GcpCompute.UnattachedDisks | service/gcp/compute/service.go:47-73 | A zone listing error gives "failed to list zones: ". A zone whose disk listing fails is skipped. The result is the READY disks without users, in order. |
| GcpCompute.UnusedVolumeOf | service/gcp/compute/service.go:37-41 | A disk gives a volume with its name and status "available". Its size is the int32 conversion of the disk size, which is exact when the size fits. |
| GcpCompute.UnusedVolumes | service/gcp/compute/service.go:29-44 | The same zone error. Otherwise there is one volume per unattached disk, in order. |
| GcpCompute.TerminatedVMs | service/gcp/compute/service.go:135-159 | A zone listing error gives "failed to list zones: ". Otherwise the result is the instances of every zone that answered, in order. |
| GcpCompute.StoppedRecordDays | service/gcp/compute/service.go:106-114 | A reported instance has been stopped at least 30 days and is named by its own name. |
| GcpCompute.SourcedVolumesShape | service/gcp/compute/service.go:117-127 | There are never more volumes than disks. Each has status "attached_stopped" and a name without '/'. |
| GcpCompute.StoppedReportShape | service/gcp/compute/service.go:89-129 | There are never more instances reported than scanned. Each was stopped at least 30 days, and each volume is an attached-stopped volume named without '/'. |
| GcpCompute.DiskVolumes | service/gcp/compute/service.go:117-127 | The disk loop gives one volume per disk with a source, in order. |
| GcpCompute.AddInstance | service/gcp/compute/service.go:90-128 | One pass of the loop extends the report by that instance. The instance is skipped when its timestamp (the stop time, or the creation time when none is set) does not parse, or when it is less than 30 days old. |
| GcpCompute.StoppedInstances | service/gcp/compute/service.go:77-132 | A listing error is returned. Otherwise the report is that of every terminated instance, in order. |
| GcpCompute.UnassignedExactly | service/gcp/compute/service.go:180-216 | An address is reported exactly when it has no users and is RESERVED, and it is either a global address (when that listing answered) or in a region that answered. |
| GcpCompute.UnassignedExternalIPs | service/gcp/compute/service.go:180-216 | A failed global listing is skipped. A region listing error gives "failed to list regions: ". Otherwise the result is the unassigned global, then regional, addresses. |
| GcpCompute.UnusedIPs | service/gcp/compute/service.go:163-177 | The same region error. Otherwise there is one record per unassigned address, with its address and its name as allocation ID. |
| GcpCompute.CommittedUseDiscounts | service/gcp/compute/service.go:266-287 | A region listing error gives "failed to list regions: ". Otherwise the result is the commitments of every region that answered. |
| GcpCompute.OneRecordPerCommitment | service/gcp/compute/service.go:232-260 | A commitment gives at most one record: "expiring" with 0 to 29 days left, or "expired" with -29 to 0 days. |
| GcpCompute.ClassifiedLength | service/gcp/compute/service.go:232-260 | There are never more reservation records than commitments. |
| GcpCompute.AppendCommitmentRecords | service/gcp/compute/service.go:233-259 | One pass of the loop appends that commitment's records. |
| GcpCompute.ExpiringReservations | service/gcp/compute/service.go:220-263 | The same region error. Otherwise the result is every listed commitment's records, in order. |
| McpAzure.ListedAppend | cmd/mcp/tools/azure.go:116-146 | The subscriptions listed from two runs of pages are those of the first run followed by those of the second. |
| McpAzure.ListedExactly | cmd/mcp/tools/azure.go:122-145 | A subscription is listed exactly when it has an ID and its state is "Enabled". It is shown with its display name, or its ID when it has no display name. There are never more listed than read. |
| McpAzure.ListPage | cmd/mcp/tools/azure.go:122-145 | The loop over one page lists exactly its enabled subscriptions, in order. |
| McpAzure.ListSubscriptions | cmd/mcp/tools/azure.go:102-151 | A credential error comes first, then a client error, then the first page error, each with its own message. Otherwise the result is the enabled subscriptions of every page. |
| McpAzure.Failed | cmd/mcp/tools/azure.go:159-162 | A step's message is present exactly when the step failed, and it is the step's prefix followed by its error. |
| McpAzure.SubscriptionInfo | cmd/mcp/tools/azure.go:153-178 | Without a subscription, the tool fails with "AZURE_SUBSCRIPTION_ID environment variable is required". Otherwise it fails exactly when a step fails (config, identity service, account info), with the first failure's message. On success it returns the account's provider, ID and name. |
| McpAzure.CurrentMonthCosts | cmd/mcp/tools/azure.go:180-205 | The same guard. It fails exactly at the first failing step. Otherwise it returns the converted current month, whose total is the sum of its services. |
| McpAzure.Compare | cmd/mcp/tools/azure.go:227-249 | Both months are converted. The difference is current minus last. The percentage is difference * 100 / last when last is positive, and 0 otherwise. |
| McpAzure.CostComparison | cmd/mcp/tools/azure.go:207-252 | The same guard. It fails exactly at the first failing step among config, identity, cost service, current month and last month. Otherwise it returns the comparison of the two months. |
| McpAzure.CostTrend | cmd/mcp/tools/azure.go:254-279 | The same guard and fail-fast steps. On success the answer is ConvertTrendData's for the six-month series (Response.TrendOf): each month converted with its "Total" amount, the spend and average, and the first highest and lowest month. |
| McpAzure.UnusedVolumes | cmd/mcp/tools/azure.go:281-306 | The same guard. It fails exactly at the first failing step (config, compute service, volumes), with "Failed to get unused volumes: " for the scan. Otherwise the volumes are converted one for one. |
| McpAzure.UnusedIPs | cmd/mcp/tools/azure.go:308-333 | The same, for unused IPs. |
| McpAzure.StoppedInstances | cmd/mcp/tools/azure.go:335-367 | The same, for stopped instances. The instances and their attached volumes are both converted. |
| McpAzure.ExpiringReservations | cmd/mcp/tools/azure.go:369-394 | The same, for expiring reservations. |
| McpAzure.WasteSteps | cmd/mcp/tools/azure.go:402-440 | The waste tool runs eight steps. |
| McpAzure.WasteSummary | cmd/mcp/tools/azure.go:396-455 | The same guard. It fails exactly when one of the eight steps fails, with the first failure's message. On success every scan answered, and the summary holds the account ID and the four converted scans. |
| McpAzure.WasteStopsAtFirstFailure | cmd/mcp/tools/azure.go:402-440 | Two environments that agree up to a failing step give the same error. Nothing after the first failure matters. |
| McpConfig.Getenv | cmd/mcp/config.go:23-26 | An unset variable reads as "". A set one reads as its value. |
| McpConfig.GetEnvOrDefault | cmd/mcp/config.go:50-55 | A non-empty value wins. An unset or empty variable gives the default. |
| McpConfig.LoadConfig | cmd/mcp/config.go:20-28 | The region is AWS_REGION when non-empty and "us-east-1" otherwise. The other four fields are their variables, or "". |
| McpConfig.ProvidersFromEnvironment | cmd/mcp/config.go:31-48 | AWS is always available. GCP needs a non-empty project. GCP billing needs a project and a billing account, so it implies GCP. Azure needs a non-empty subscription. |
| McpConfig.EmptyEnvironment | cmd/mcp/config.go:20-48 | An empty environment configures AWS in us-east-1 and neither GCP nor Azure. |
| McpConfig.ToolsFollowConfig | cmd/mcp/config.go:30-48 | The multi-cloud cost tool queries exactly the providers HasAWS, HasGCPBilling and HasAzure allow. The waste tool queries those HasGCP and HasAzure allow. |
| McpMultiCloud.Comparison | cmd/mcp/tools/multicloud.go:207-210 | The difference is current minus last. The percentage satisfies percent * last = difference * 100 when last is positive, and is 0 otherwise. |
| McpMultiCloud.ErrorText | cmd/mcp/tools/multicloud.go:176 | A collector's error text is the error's message, or "" when there is none. |
| McpMultiCloud.ConvertMonth | cmd/mcp/tools/multicloud.go:195-197 | The month's total is the sum of its services. The currency is the one ConvertCostInfo picks. |
| McpMultiCloud.CollectCostSummary | cmd/mcp/tools/multicloud.go:167-213 | The collector's error is the first failing step's message. The account ID is set once identity succeeded. The current cost and currency are set once the current month answered, otherwise 0 and "USD". The last cost, difference and percentage are set only when both months answered. |
| McpMultiCloud.LastCurrencyIsLatestReported | cmd/mcp/tools/multicloud.go:86-96 | The summary's currency is that of the last error-free result with a non-empty currency, or "USD" when there is none. |
| McpMultiCloud.Totals | cmd/mcp/tools/multicloud.go:86-96 | The total is the sum of the current costs of the error-free results. The currency is the last one reported. |
| McpMultiCloud.TotalIgnoresArrivalOrder | cmd/mcp/tools/multicloud.go:88-96 | The total does not depend on the order in which the collectors finished. |
| McpMultiCloud.CurrencyDependsOnArrivalOrder | cmd/mcp/tools/multicloud.go:88-96 | The currency does depend on it. AWS in USD and Azure in EUR give "EUR" when Azure finishes last, and "USD" when AWS does. |
| McpMultiCloud.CostProviders | cmd/mcp/tools/multicloud.go:49-81 | AWS always, GCP with a project and a billing account, Azure with a subscription. |
| McpMultiCloud.CostCollector | cmd/mcp/tools/multicloud.go:51-80 | Each goroutine runs its own provider's collector against that provider's clients. |
| McpMultiCloud.LaunchCostCollectors | cmd/mcp/tools/multicloud.go:49-83 | Exactly the configured providers finish, each with its own collector's result. |
| McpMultiCloud.ArriveCosts | cmd/mcp/tools/multicloud.go:53-83 | The results are appended in some arrival order: one per finished provider, no provider twice. |
| McpMultiCloud.CostSummaryHandler | cmd/mcp/tools/multicloud.go:43-107 | The response lists exactly one result per configured provider, each its collector's. The total is the sum of the error-free current costs. The currency is the last one reported in arrival order. |
| McpMultiCloud.Listed | cmd/mcp/tools/multicloud.go:340-343 | An ignored scan error reads as an empty list. Otherwise the scan's items are kept. |
| McpMultiCloud.CollectWasteSummary | cmd/mcp/tools/multicloud.go:325-354 | A summary is returned exactly when setup and identity succeed. Failed scans are then reported as empty lists, and the others are converted one for one. |
| McpMultiCloud.WasteProviders | cmd/mcp/tools/multicloud.go:115-153 | AWS always, GCP with a project, Azure with a subscription. |
| McpMultiCloud.WasteCollector | cmd/mcp/tools/multicloud.go:117-152 | A provider contributes exactly when its collector returned a summary, and that summary is its own. |
| McpMultiCloud.AddWasteCollector | cmd/mcp/tools/multicloud.go:117-152 | Launching one more collector adds its provider exactly when it returned a summary. |
| McpMultiCloud.LaunchWasteCollectors | cmd/mcp/tools/multicloud.go:115-155 | A configured provider finishes exactly when its collector returned a summary. |
| McpMultiCloud.WasteSummaryHandler | cmd/mcp/tools/multicloud.go:109-164 | The response lists exactly the configured providers whose collectors returned, each once and each with its own summary. |
| Model.MapTotalRemove | cmd/mcp/response/convert.go:33-43 | A cost group's total is any one entry plus the total of the rest, so it does not depend on the order in which the map is ranged over. |
| MultiCloudTables.ParseCost | utils/multicloud.go:272-280 | A total whose first piece is not a number reads as zero, and so does the empty text. |
| MultiCloudTables.ParseCostOfFormattedTotal | utils/multicloud.go:272-280 | A total rendered as "%.2f unit" reads back as its amount rounded to the cent. |
| MultiCloudTables.CurrencyPiece | utils/multicloud.go:76-79 | A total has a currency piece exactly when splitting it at spaces gives more than one piece. |
| MultiCloudTables.LastContribution | utils/multicloud.go:56-71 | A failed provider adds nothing to the last-month total. Any other adds its parsed last total. |
| MultiCloudTables.CurrentContribution | utils/multicloud.go:56-72 | The same for the current month. |
| MultiCloudTables.SummaryRow | utils/multicloud.go:56-101 | One pass of the loop: an error row for a failed provider. Otherwise the row holds the parsed costs and their difference, in the currency known so far, which the first provider with a unit sets. |
| MultiCloudTables.DrawCostSummaryTable | utils/multicloud.go:39-129 | There is one row per result. A total row exists exactly when there is more than one result. It sums the error-free providers' last and current costs, and its difference is current minus last, in the first currency found. |
| MultiCloudTables.NextSummaryRow | utils/multicloud.go:55-102 | Each pass keeps the rows, the running sums and the currency in step with the results seen. |
| MultiCloudTables.TotalsIgnoreArrivalOrder | utils/multicloud.go:71-72 | The summed totals do not depend on the order of the results. |
| MultiCloudTables.DrawWasteSummaryTable | utils/multicloud.go:183-263 | There is one row per result. A total row exists exactly when there is more than one result. It holds the per-column sums over error-free providers and is "All Healthy" exactly when they are all zero. |
| MultiCloudTables.AllHealthyIffEveryRowHealthy | utils/multicloud.go:244-249 | The total is all healthy exactly when every error-free provider's row is healthy. |
| MultiCloudTables.DrawMultiCloudCostTable | utils/multicloud.go:15-37 | The summary comes first. Then each result gets an error notice, its cost table when both months' data are present, or nothing. |
| MultiCloudTables.CostSections | utils/multicloud.go:23-36 | The detail loop gives one section per result, as above. |
| MultiCloudTables.DrawMultiCloudTrendChart | utils/multicloud.go:132-150 | Each result gets an error notice, its chart when it has trend data, or nothing. |
| MultiCloudTables.DrawMultiCloudWasteTable | utils/multicloud.go:153-181 | The summary, then for each result an error notice, its waste details when any list is non-empty, or nothing. |
| MultiCloudTables.Priority | utils/multicloud.go:284 | aws, gcp and azure rank 1, 2 and 3. Every other name has the map's zero value. |
| MultiCloudTables.SortProviderCostResults | utils/multicloud.go:283-288 | The slice is sorted in place by provider priority and is a permutation of its old contents. |
| MultiCloudTables.SortProviderWasteResults | utils/multicloud.go:290-295 | The same for waste results. |
| MultiCloudTables.CanonicalOrder | utils/multicloud.go:284 | The canonical order lists exactly the known providers given. |
| MultiCloudTables.SortedProvidersAreCanonical | utils/multicloud.go:283-288 | Distinct known providers in priority order are exactly the canonical order of their set. The sort therefore fixes the display order whatever the arrival order. |
| MultiCloudTables.RankAtLeastPosition | utils/multicloud.go:284-287 | In a sorted list of distinct providers, the provider at position i has priority at least i + 1. |
| Numbers.ParseFloat | service/aws/costexplorer/service.go:167 | strconv.ParseFloat on plain decimal text. The empty text is an error. |
| Numbers.ParseOrZero | service/aws/costexplorer/service.go:95 | ParseFloat with its error ignored: the parsed value, or zero on failure. |
| Numbers.RoundHalfEven | service/aws/costexplorer/service.go:147 | Rounding lands within one half of the value, keeps non-negative values non-negative, and leaves integers unchanged. |
| Numbers.Cents | service/aws/costexplorer/service.go:147 | The cents that "%.2f" prints lie within half a cent of the amount. |
| Numbers.FormatFixed2Parses | utils/cost_table.go:90 | Parsing what "%.2f" printed gives the amount rounded to the cent. |
| Numbers.SignedParse | utils/cost_table.go:90 | Digits parse to their value, and with a leading '-' to its negation. |
| Numbers.CentsExact | utils/cost_table.go:123-124 | An amount that is already whole cents is printed exactly. |
| Numbers.WholeDays | service/gcp/compute/service.go:108 | int(d.Hours() / 24) truncates toward zero: whole days, below or above depending on the sign. |
| Numbers.Int32 | service/gcp/compute/service.go:39 | int32(x) wraps modulo 2^32 into the 32-bit range and leaves values in range unchanged. |
| Orchestrator.SelectWorkflow | service/orchestrator/service.go:21-31 | Waste wins over trend, and trend over the default workflow. |
| Orchestrator.WorkflowCalls | service/orchestrator/service.go:33-114 | Every workflow ends with the caller-identity call, after at least one data call. Waste uses no cost call, and the others no resource call. |
| Orchestrator.CallErrors | service/orchestrator/service.go:33-114 | Each call of the workflow has its own outcome's error. |
| Orchestrator.Orchestrate | service/orchestrator/service.go:21-31 | The selected workflow runs its calls fail-fast. A report is produced exactly when no call failed, and it shows that workflow's answers. |
| Orchestrator.DefaultFlow | service/orchestrator/service.go:33-63 | Current costs, last costs, current total, last total, then identity, stopping at the first error. The report is the cost table's inputs. |
| Orchestrator.TrendFlow | service/orchestrator/service.go:65-81 | Six months, then identity, stopping at the first error. The report is the trend. |
| Orchestrator.WasteFlow | service/orchestrator/service.go:83-114 | Unused IPs, unused volumes, stopped instances, reservations, then identity, stopping at the first error. The report holds the five answers. |
| Orchestrator.IdentityCalledIffDataSucceeded | service/orchestrator/service.go:54-57 | Identity is called exactly when every data call before it succeeded. |
| Reads.FirstReadError | service/gcp/billing/service.go:82-95 | The row loop ends without error exactly when every read yielded an item. |
| Reads.ReadErrorStops | service/gcp/billing/service.go:93-95 | Once a read fails, the reads after it do not matter. |
| Reads.Items | service/gcp/billing/service.go:82-104 | There are never more rows than reads. |
| Reads.ItemsOfCleanReads | service/gcp/billing/service.go:82-104 | When every read succeeds, the rows are the items read, in order. |
| Reads.ItemStep | service/gcp/billing/service.go:89-103 | A successful read extends the rows by its item. |
| Reads.ErrorStep | service/gcp/billing/service.go:93-95 | A failed read after clean ones is the error the loop ends with. |
| Reads.CleanLength | service/azure/compute/service.go:336-345 | The reads before the first failure all succeeded, and the one after them failed. |
| Reads.FilterAppend | service/azure/compute/service.go:79-93 | Filtering page after page is filtering all pages at once. |
| Reads.FilterMembers | service/azure/compute/service.go:85-92 | An item is kept exactly when it occurs and passes the test. |
| Reads.FilterLength | service/azure/compute/service.go:85-92 | Filtering never lengthens the list and keeps it whole when every item passes. |
| Reads.PageStep | service/azure/compute/service.go:79-93 | A page read successfully appends its items. |
| Reads.SuccessStep | service/gcp/compute/service.go:57-70 | A zone or region that answered adds its items, and one that failed adds nothing. |
| Reads.KeepWhere | service/azure/compute/service.go:85-92 | The per-page loop keeps exactly the items that pass, in order. |
| Reads.KeepFromAnswers | service/gcp/compute/service.go:57-70 | The zone loop keeps the passing items of every zone that answered and skips the others. |
| Reads.GatherAnswers | service/gcp/compute/service.go:145-156 | The zone loop gathers every answer's items and skips failed zones. |
| Response.ConvertAccountInfo | cmd/mcp/response/convert.go:12-21 | No account gives no response. Otherwise the provider, id and name are carried over unchanged. |
| Response.ConvertCostInfo | cmd/mcp/response/convert.go:24-70 | No cost info gives no response. Otherwise the result lists one line per cost group key, sorted by amount with the largest first, with the dates it was given or "" for each missing one. Its total is the sum of the group's amounts. Its currency is the first non-empty unit met, or "USD". |
| Response.ListGroup | cmd/mcp/response/convert.go:33-43 | The range loop lists each key exactly once with its amount and unit and sums the amounts. The currency is empty exactly when every unit is empty, and is otherwise one of the units. |
| Response.ListStep | cmd/mcp/response/convert.go:34-42 | One pass of the range loop keeps the listing, total and currency consistent with the keys seen. |
| Response.SortServices | cmd/mcp/response/convert.go:46-48 | The service lines are reordered by amount, largest first, and none is lost or added. |
| Response.ParseTotalCostString | cmd/mcp/response/convert.go:73-84 | The amount comes from the first whitespace field, or is zero when there are no fields or the field does not parse. The unit is the second field, or "USD" when there are fewer than two. |
| Response.ParseFormattedTotal | cmd/mcp/response/convert.go:73-84 | A total printed as "%.2f unit" parses back to its amount rounded to the cent and to its unit, or to "USD" when the unit is empty. |
| Response.MonthTotal | cmd/mcp/response/convert.go:107-114 | A month's total is the amount under its "Total" key, or zero when there is none. |
| Response.MonthLabel | cmd/mcp/response/convert.go:120-123 | The label is the first seven characters (YYYY-MM) of a start date at least that long, and "" otherwise. |
| Response.HighestStep | cmd/mcp/response/convert.go:125-128 | The first month, or any month strictly above the highest so far, takes the highest place. The earliest month with the maximum therefore keeps it. |
| Response.LowestStep | cmd/mcp/response/convert.go:129-132 | The same for the lowest place. |
| Response.ConvertMonth | cmd/mcp/response/convert.go:102-115 | A trend month is its converted cost info with the total replaced by the month's "Total" amount. |
| Response.AddMonth | cmd/mcp/response/convert.go:101-134 | One pass of the trend loop appends the converted month, adds its total to the spend, and keeps the first highest and first lowest months. |
| Response.ConvertTrendData | cmd/mcp/response/convert.go:87-152 | No data gives no months and a zero summary. Otherwise there is one converted month per input month. The summary's spend is the sum of the "Total" amounts and its average is that sum over the month count. Its highest and lowest are the earliest months with the maximum and the minimum total. |
| Response.ConvertUnusedVolumes | cmd/mcp/response/convert.go:155-166 | One response entry per volume, in order, with its id, size and status. |
| Response.ConvertStoppedInstances | cmd/mcp/response/convert.go:168-179 | One response entry per instance, in order, with its id, name and stopped days. |
| Response.ConvertUnusedIPs | cmd/mcp/response/convert.go:181-191 | One response entry per address, in order, with its address and allocation id. |
| Response.ConvertReservations | cmd/mcp/response/convert.go:193-204 | One response entry per reservation, in order, with its id, type, status and days to expiry. |
| Sorting.SortByKey | utils/multicloud.go:283-288 | sort.Slice with a "less by key" function leaves the array sorted by that key and a permutation of its old contents. |
| Sorting.Insert | utils/barchart.go:86-88 | The insertion step puts one element in place among the sorted prefix, keeping a permutation. |
| Sorting.SwapStep | cmd/mcp/response/convert.go:46-48 | An adjacent swap of an out-of-order pair moves the gap down by one and keeps the multiset. |
| Strings.Split | service/azure/compute/service.go:354 | strings.Split gives at least one part and no part contains the separator. |
| Strings.JoinSplit | utils/cost_table.go:87-88 | Joining the parts of a split with the separator gives back the text. |
| Strings.Fields | cmd/mcp/response/convert.go:74 | strings.Fields gives non-empty fields with no whitespace in them. |
| Strings.FieldsCoverText | cmd/mcp/response/convert.go:74 | The fields, put together, are the text with its whitespace removed. |
| Strings.ToLower | service/ec2/service.go:213 | Lowering keeps the length and lowers each ASCII letter in place. |
| Strings.IndexOf | service/aws/costexplorer/service.go:167 | The index found is the first occurrence of the character. None means the character does not occur. |
| Strings.ReplaceCharAt | service/gcp/billing/service.go:51 | Replacing one character by another changes exactly the positions that held it. |
| Strings.LastSegment | service/gcp/compute/service.go:292-300 | The last segment is a suffix of the text without the separator, preceded by the separator when it is shorter than the text. |
| Strings.LastSegmentUnique | service/gcp/compute/service.go:292-300 | Those three facts fix the last segment uniquely. |
| Sums.SumAppend | utils/multicloud.go:71-72 | Adding one more amount to a running sum gives the sum of the longer list. |
| Sums.SumInsert | utils/multicloud.go:71-72 | Inserting an element anywhere adds its amount to the sum. |
| Sums.SumPermutation | utils/multicloud.go:283-288 | Reordering a list, as the sort and arrival order do, does not change its sum. |
| TransitionDate.RunEnd | utils/ec2.go:9 | The "[^)]+" run from a position stops at the first ')' or at the end. |
| TransitionDate.GroupAtMeansMatch | utils/ec2.go:9 | The scanner's test at a position agrees with the pattern "\(([^)]+)\)" matching there. |
| TransitionDate.FirstGroupIsLeftmost | utils/ec2.go:12 | FindStringSubmatch gives the group of the leftmost match: a non-empty text without ')' between '(' and ')'. When there is no match, no position matches. |
| TransitionDate.EmptyParenthesesSkipped | utils/ec2.go:9-12 | "()" does not match, so the search goes on to the next parenthesis. |
| TransitionDate.ParseTransitionDate | utils/ec2.go:11-21 | With no match the error is "no date found in string: " followed by the reason. Otherwise the result is the layout parse of the captured group. |

## Left out

- Terminal output is not modelled: spinners, colours, `go-pretty` tables, bar charts and `utils/waste_table.go`. The tables are modelled as the rows they hold, and the charts as the values and colours they assign.
- The CLI flags and the MCP server wiring are not modelled: tool registration and JSON marshalling of the responses. The handlers are modelled from their inputs to the records or error texts they return.
- `cmd/mcp/tools/aws.go` and `cmd/mcp/tools/gcp.go` are not part of this model. They forward to the same services as the Azure tools, which are modelled.
- Goroutines, channels and `sync.WaitGroup` are reduced to the order in which the workers finish, which is a parameter. Interleavings inside a worker are not modelled, since each worker only writes its own result.
- Clocks are parameters: `time.Now()` is the date given. Time zones are left out, and dates are calendar days in the Gregorian calendar.
- RFC 3339 parsing and `time.Parse` with the layout `"2006-01-02 15:04:05 MST"` are parameters. TransitionDate models the regular-expression scan in full and leaves the layout parse abstract.
- Numbers.ParseFloat covers plain decimals with an optional leading '+' or '-'. Exponents, hexadecimal floats, "Inf", "NaN" and underscores are read as parse failures. Amounts are exact reals, so float64 rounding is not modelled.
- MultiCloudTables.ParseCost: the source reads the first piece with `fmt.Sscanf("%f")`, which takes the longest number prefix and accepts exponents, so "12abc" gives 12 and "1e3" gives 1000. The model parses the whole piece as a plain decimal and gives 0 for both. The two agree on every total the services format (MultiCloudTables.ParseCostOfFormattedTotal).
- Strings.ToLower / Strings.EqualFold: these fold ASCII letters only. Go's `strings.ToLower` and `strings.EqualFold` use Unicode case mapping, for example 'İ' lowers to 'i', and 'ſ' folds with 's'. This affects Ec2's description rule lookup (Ec2.DescriptionTypeIsFirstRule) and the "resourceGroups" test of AzureCompute.ExtractResourceGroup. The model can differ from the source only on non-ASCII text, and SDK descriptions and ARM resource IDs are ASCII.
- AzureCompute.ExtractResourceGroup: its case-insensitive match is Strings.EqualFold, which folds ASCII only, as stated on the line above.
- KeyByService: a kept group with neither keys nor a unit panics with the index-out-of-range message in the model. Go does not specify whether `v.Keys[0]` or `*…Unit` is evaluated first in that assignment, so the contract only says which message appears when exactly one of the two is missing.
- Numbers.WholeDays takes whole seconds. The source divides float64 hours, so fractions of a second are not modelled.
- Numbers.Cents: "%.2f" is modelled as round-half-even on the exact amount. Go rounds the float64's binary value, which can differ for amounts that are not exact binary fractions.
- nil and empty slices and maps are not told apart. ConvertTrendData's empty `Months: []CostInfo{}` and the non-empty case's `nil` start are both the empty sequence.
- Ec2.ElasticIpAddressesInfo: the interface lookup is an abstract answer that is an interface or an error. An answer with an empty `NetworkInterfaces` list makes the source panic on index 0 (service/ec2/service.go:52), and that case is not modelled.
- The interface-type names returned by the AWS SDK are taken as given strings. The SDK's enumeration is not modelled.
- `GetUnusedEBSVolumes` (service/ec2/service.go:86-100) returns the SDK's answer unchanged with a fixed filter. It is not modelled beyond being an answer.
- The SQL and filter texts sent to BigQuery, Cost Explorer and Cost Management are not modelled. Their answers are parameters, given as rows, groups or columns.
- The Azure six-month loop skips a month whose query fails, although its comment says it continues with zero (service/azure/costmanagement/service.go:199-200). AzureCostManagement.LastSixMonthsCosts models the skip, as the code does.
- The "no providers configured" errors of the multi-provider runs (app.go:222-224, 274-276, 326-328) are unreachable because AWS is always launched (App.CostProviders, App.WasteProviders). App.RunAll therefore has no error outcome.
- McpMultiCloud.Totals: the MCP cost summary also sums `totalLast` (cmd/mcp/tools/multicloud.go:91) and never uses it. The model leaves that sum out.
- The SDK clients' construction and credentials are left out: `NewService`, config loading and Azure's credential chain. A failed client construction is one of the abstract errors a provider can give.

## Findings

The operations compute dates as the code does, with `AddDate`. The corrected
definitions stand beside them, with the intended properties proved.

| source | as written | input that shows it | evidently intended | confidence | as-written member | corrected member |
|---|---|---|---|---|---|---|
| service/aws/costexplorer/service.go:27 | "Last month" is `time.Now().AddDate(0, -1, 0)`. Go normalises the day that overflows, so from 31 March 2024 it lands on 2 March 2024, and the "last month" query covers March again. | now = 2024-03-31 | The calendar month before the current one (February 2024), with the day clamped to the month's length | high (not executed) | Calendar.LastMonthOnMarch31 | Calendar.MonthsBefore |
| service/azure/costmanagement/service.go:172-175 | The six-month loop takes `time.Now().AddDate(0, -i, 0)` for i = 6 … 1. On a 31st the overflow repeats some months and skips others. | now = 2024-12-31 gives months 7, 7, 8, 10, 10, 12 | Months 6 to 11 of 2024, each once | high (not executed) | AzureCostManagement.TrendMonthsOnDecember31 | AzureCostManagement.IntendedTrendMonth |
| service/aws/costexplorer/service.go:74-82 | The six-month window starts at the first of the month of `time.Now().AddDate(0, -6, 0)`. On a day that does not exist six months back, it starts a month late and covers five months. The GCP query at service/gcp/billing/service.go:187 builds its window the same way. | now = 2024-08-31 gives 2024-03-01 to 2024-08-01 | 2024-02-01 to 2024-08-01, six months | high (not executed) | Calendar.TrendWindowOnAugust31 | Calendar.MonthsBefore |
