// service/ec2/service.go: Elastic IPs, stopped instances and reserved
// instances. Each Describe* call is an abstract answer; the network-interface
// lookup of an address is carried with the address, and the volume lookup is
// a function of the requested IDs. The interface-type names are the string
// values of the AWS SDK's NetworkInterfaceType constants (the SDK itself is
// not part of this model); the last four are literals in the source.
module Ec2 {
  import opened Wrappers
  import opened Reads
  import Strings
  import Numbers
  import TransitionDate

  const InterfaceTypeInterface := "interface"
  const ReservedInstanceActive := "active"

  // ---------------------------------------------------------------- interface types

  /**
   * The chain of getResourceTypeFromDescription, given the test "the
   * lower-cased description contains this pattern": the first rule, in
   * this order, whose pattern occurs.
   */
  function TypeChain(has: string -> bool): string
  {
    if has("elb app/") then "load_balancer"
    else if has("elb net/") then "network_load_balancer"
    else if has("nat gateway") || has("nat-gateway") then "natGateway"
    else if has("globalaccelerator") then "global_accelerator_managed"
    else if has("vpc endpoint") || has("vpce-") then "vpc_endpoint"
    else if has("transit gateway") || has("tgw-") then "transit_gateway"
    else if has("aws lambda") then "lambda"
    else if has("api gateway") then "api_gateway_managed"
    else if has("iot rules") then "iot_rules_managed"
    else if has("gateway load balancer") then "gateway_load_balancer"
    else if has("redshift") then "redshift_cluster"
    else if has("rds") then "rds_database"
    else if has("directory service") then "directory_service"
    else if has("fsx") then "fsx"
    else InterfaceTypeInterface
  }

  /** The test strings.Contains(strings.ToLower(description), pattern). */
  function Occurs(description: string): string -> bool
  {
    pattern => Strings.Contains(Strings.ToLower(description), pattern)
  }

  /** getResourceTypeFromDescription. */
  function ResourceTypeFromDescription(description: string): string
  {
    TypeChain(Occurs(description))
  }

  /** One rule of the chain: its pattern, or its alternative pattern when it has one, gives its type. */
  datatype Rule = Rule(pattern: string, alternative: Option<string>, interfaceType: string)

  /** Rules tried in order, ending in the default type. */
  datatype Table = Default | Try(rule: Rule, otherwise: Table)

  /** The rules of getResourceTypeFromDescription as a table, in the order they are tried. */
  const Rules: Table :=
    Try(Rule("elb app/", None, "load_balancer"),
    Try(Rule("elb net/", None, "network_load_balancer"),
    Try(Rule("nat gateway", Some("nat-gateway"), "natGateway"),
    Try(Rule("globalaccelerator", None, "global_accelerator_managed"),
    Try(Rule("vpc endpoint", Some("vpce-"), "vpc_endpoint"),
    Try(Rule("transit gateway", Some("tgw-"), "transit_gateway"),
    Try(Rule("aws lambda", None, "lambda"),
    Try(Rule("api gateway", None, "api_gateway_managed"),
    Try(Rule("iot rules", None, "iot_rules_managed"),
    Try(Rule("gateway load balancer", None, "gateway_load_balancer"),
    Try(Rule("redshift", None, "redshift_cluster"),
    Try(Rule("rds", None, "rds_database"),
    Try(Rule("directory service", None, "directory_service"),
    Try(Rule("fsx", None, "fsx"),
    Default))))))))))))))

  /** The rules of a table, in order. */
  function Entries(table: Table): seq<Rule>
  {
    match table
    case Default => []
    case Try(rule, otherwise) => [rule] + Entries(otherwise)
  }

  predicate RuleMatches(has: string -> bool, rule: Rule)
  {
    has(rule.pattern) || (rule.alternative.Some? && has(rule.alternative.value))
  }

  /** The type of the first rule of the table that matches, or "interface". */
  function FirstRuleType(has: string -> bool, table: Table): string
  {
    match table
    case Default => InterfaceTypeInterface
    case Try(rule, otherwise) => if RuleMatches(has, rule) then rule.interfaceType else FirstRuleType(has, otherwise)
  }

  /** With no matching rule the type is "interface". */
  lemma {:induction false} NoRuleMeansDefault(has: string -> bool, table: Table)
    requires forall i :: 0 <= i < |Entries(table)| ==> !RuleMatches(has, Entries(table)[i])
    ensures FirstRuleType(has, table) == InterfaceTypeInterface
  {
    match table
    case Default =>
    case Try(rule, otherwise) =>
      var rest := Entries(otherwise);
      assert Entries(table)[0] == rule;
      forall i | 0 <= i < |rest| ensures !RuleMatches(has, rest[i]) {
        assert rest[i] == Entries(table)[i + 1];
      }
      NoRuleMeansDefault(has, otherwise);
  }

  /** The first matching rule decides: a rule gives its type when no earlier rule matched. */
  lemma {:induction false} FirstRuleDecides(has: string -> bool, table: Table, i: nat)
    requires i < |Entries(table)| && RuleMatches(has, Entries(table)[i])
    requires forall j :: 0 <= j < i ==> !RuleMatches(has, Entries(table)[j])
    ensures FirstRuleType(has, table) == Entries(table)[i].interfaceType
  {
    match table
    case Try(rule, otherwise) =>
      var rest := Entries(otherwise);
      assert Entries(table)[0] == rule;
      if i > 0 {
        assert Entries(table)[i] == rest[i - 1];
        forall j | 0 <= j < i - 1 ensures !RuleMatches(has, rest[j]) {
          assert rest[j] == Entries(table)[j + 1];
        }
        FirstRuleDecides(has, otherwise, i - 1);
      }
  }

  /** The chain is the table read in order, whatever the containment test. */
  lemma ChainIsRuleTable(has: string -> bool)
    ensures TypeChain(has) == FirstRuleType(has, Rules)
  {
  }

  /**
   * The interface type of a description is the type of the first rule of
   * the table one of whose patterns its lower-cased text contains, or
   * "interface" when there is none.
   */
  lemma DescriptionTypeIsFirstRule(description: string)
    ensures (forall i :: 0 <= i < |Entries(Rules)| ==> !RuleMatches(Occurs(description), Entries(Rules)[i]))
            ==> ResourceTypeFromDescription(description) == InterfaceTypeInterface
    ensures forall i :: (0 <= i < |Entries(Rules)| && RuleMatches(Occurs(description), Entries(Rules)[i])
                         && (forall j :: 0 <= j < i ==> !RuleMatches(Occurs(description), Entries(Rules)[j])))
                        ==> ResourceTypeFromDescription(description) == Entries(Rules)[i].interfaceType
  {
    var has := Occurs(description);
    ChainIsRuleTable(has);
    if forall i :: 0 <= i < |Entries(Rules)| ==> !RuleMatches(has, Entries(Rules)[i]) {
      NoRuleMeansDefault(has, Rules);
    }
    forall i | 0 <= i < |Entries(Rules)| && RuleMatches(has, Entries(Rules)[i])
               && (forall j :: 0 <= j < i ==> !RuleMatches(has, Entries(Rules)[j]))
      ensures TypeChain(has) == Entries(Rules)[i].interfaceType
    {
      FirstRuleDecides(has, Rules, i);
    }
  }

  /** Redshift is tried before RDS, so a text naming Redshift is never taken for an RDS database. */
  lemma RedshiftBeforeRds(has: string -> bool)
    requires has("redshift")
    ensures TypeChain(has) != "rds_database"
  {
  }

  // ---------------------------------------------------------------- Elastic IPs

  datatype NetworkInterface = NetworkInterface(interfaceType: string, description: Option<string>)

  /**
   * An Elastic IP, with the answer DescribeNetworkInterfaces gives for its
   * interface (asked only when the address has no instance).
   */
  datatype Address = Address(
    associationId: Option<string>,
    allocationId: Option<string>,
    publicIp: Option<string>,
    instanceId: Option<string>,
    networkInterface: Outcome<NetworkInterface>)

  datatype AttachedIpInfo = AttachedIpInfo(ipAddress: string, allocationId: string, resourceType: string)

  datatype ElasticIpInfo = ElasticIpInfo(unusedElasticIpAddresses: seq<string>, usedElasticIpAddresses: seq<AttachedIpInfo>)

  /** An Elastic IP is unused when it has no association ID. */
  predicate IsUnassociated(a: Address)
  {
    a.associationId.None?
  }

  /** The used-list entry of an address: "ec2" on an instance, else its interface's type. */
  function AttachedOf(a: Address): Outcome<AttachedIpInfo>
  {
    var info := AttachedIpInfo(a.publicIp.GetOr(""), a.allocationId.GetOr(""), "ec2");
    if a.instanceId.Some? then Success(info)
    else match a.networkInterface
      case Failure(e) => Failure(e)
      case Success(ni) =>
        var interfaceType :=
          if ni.interfaceType == InterfaceTypeInterface
          then ResourceTypeFromDescription(ni.description.GetOr("")) else ni.interfaceType;
        Success(info.(resourceType := interfaceType))
  }

  /** The allocation IDs of the addresses, "" when missing. */
  function AllocationIds(addresses: seq<Address>): (ids: seq<string>)
    ensures |ids| == |addresses|
    ensures forall i :: 0 <= i < |addresses| ==> ids[i] == addresses[i].allocationId.GetOr("")
  {
    if addresses == [] then []
    else AllocationIds(addresses[..|addresses| - 1]) + [addresses[|addresses| - 1].allocationId.GetOr("")]
  }

  /** What GetElasticIpAddressesInfo builds from the addresses, failing at the first interface lookup that fails. */
  function ElasticIpInfoOf(addresses: seq<Address>): Outcome<ElasticIpInfo>
  {
    if addresses == [] then Success(ElasticIpInfo([], []))
    else
      var last := addresses[|addresses| - 1];
      match ElasticIpInfoOf(addresses[..|addresses| - 1])
      case Failure(e) => Failure(e)
      case Success(info) =>
        match AttachedOf(last)
        case Failure(e) => Failure(e)
        case Success(attached) =>
          Success(ElasticIpInfo(
            info.unusedElasticIpAddresses + (if IsUnassociated(last) then [last.allocationId.GetOr("")] else []),
            info.usedElasticIpAddresses + [attached]))
  }

  /**
   * Every address, associated or not, is in the used list, in order; the
   * unused list holds the allocation IDs of exactly the unassociated ones;
   * the call fails exactly when some interface lookup fails.
   */
  lemma {:induction false} ElasticIpInfoShape(addresses: seq<Address>)
    ensures match ElasticIpInfoOf(addresses)
      case Success(info) =>
        |info.usedElasticIpAddresses| == |addresses|
        && (forall i :: 0 <= i < |addresses| ==>
              Success(info.usedElasticIpAddresses[i]) == AttachedOf(addresses[i]))
        && info.unusedElasticIpAddresses == AllocationIds(Filter(addresses, IsUnassociated))
      case Failure(e) => exists i :: 0 <= i < |addresses| && AttachedOf(addresses[i]) == Failure(e)
  {
    if addresses != [] {
      var init := addresses[..|addresses| - 1];
      var last := addresses[|addresses| - 1];
      ElasticIpInfoShape(init);
      match ElasticIpInfoOf(init)
      case Failure(e) =>
        var i :| 0 <= i < |init| && AttachedOf(init[i]) == Failure(e);
        assert addresses[i] == init[i];
      case Success(info) =>
        if AttachedOf(last).Success? {
          var kept := Filter(init, IsUnassociated);
          if IsUnassociated(last) {
            assert Filter(addresses, IsUnassociated) == kept + [last];
            assert (kept + [last])[..|kept|] == kept;
          } else {
            assert Filter(addresses, IsUnassociated) == kept;
          }
        }
    }
  }

  /** The body of GetElasticIpAddressesInfo's loop for one address. */
  method AddAddress(info: ElasticIpInfo, a: Address) returns (r: Outcome<ElasticIpInfo>)
    ensures AttachedOf(a).Failure? ==> r == Failure(AttachedOf(a).error)
    ensures AttachedOf(a).Success? ==>
      r == Success(ElasticIpInfo(
             info.unusedElasticIpAddresses + (if IsUnassociated(a) then [a.allocationId.GetOr("")] else []),
             info.usedElasticIpAddresses + [AttachedOf(a).value]))
  {
    var unusedEips := info.unusedElasticIpAddresses;
    if a.associationId.None? {
      unusedEips := unusedEips + [a.allocationId.GetOr("")];
    }
    assert unusedEips
           == info.unusedElasticIpAddresses + (if IsUnassociated(a) then [a.allocationId.GetOr("")] else []);
    var attachedIp := AttachedIpInfo(a.publicIp.GetOr(""), a.allocationId.GetOr(""), "ec2");
    if a.instanceId.None? {
      if a.networkInterface.Failure? {
        return Failure(a.networkInterface.error);
      }
      var interfaceType := a.networkInterface.value.interfaceType;
      if interfaceType == InterfaceTypeInterface {
        interfaceType := ResourceTypeFromDescription(a.networkInterface.value.description.GetOr(""));
      }
      attachedIp := attachedIp.(resourceType := interfaceType);
    }
    assert AttachedOf(a) == Success(attachedIp);
    return Success(ElasticIpInfo(unusedEips, info.usedElasticIpAddresses + [attachedIp]));
  }

  /** GetElasticIpAddressesInfo. */
  method ElasticIpAddressesInfo(output: Outcome<seq<Address>>) returns (r: Outcome<ElasticIpInfo>)
    ensures output.Failure? ==> r == Failure(output.error)
    ensures output.Success? ==> r == ElasticIpInfoOf(output.value)
  {
    if output.Failure? {
      return Failure(output.error);
    }
    var addresses := output.value;
    var info := ElasticIpInfo([], []);
    for i := 0 to |addresses|
      invariant ElasticIpInfoOf(addresses[..i]) == Success(info)
    {
      assert addresses[..i + 1][..i] == addresses[..i];
      var next := AddAddress(info, addresses[i]);
      if next.Failure? {
        assert ElasticIpInfoOf(addresses[..i + 1]) == next;
        ElasticIpFailureStays(addresses, i + 1);
        return next;
      }
      info := next.value;
    }
    assert addresses[..|addresses|] == addresses;
    return Success(info);
  }

  /** Once a prefix fails, the whole list fails with the same error. */
  lemma {:induction false} ElasticIpFailureStays(addresses: seq<Address>, n: nat)
    requires n <= |addresses| && ElasticIpInfoOf(addresses[..n]).Failure?
    ensures ElasticIpInfoOf(addresses) == ElasticIpInfoOf(addresses[..n])
    decreases |addresses| - n
  {
    if n < |addresses| {
      assert addresses[..n + 1][..n] == addresses[..n];
      ElasticIpFailureStays(addresses, n + 1);
    } else {
      assert addresses[..n] == addresses;
    }
  }

  /** GetUnusedElasticIpAddressesInfo: the addresses without an association ID, in order. */
  method UnusedElasticIpAddresses(output: Outcome<seq<Address>>) returns (r: Outcome<seq<Address>>)
    ensures output.Failure? ==> r == Failure(output.error)
    ensures output.Success? ==> r == Success(Filter(output.value, IsUnassociated))
  {
    if output.Failure? {
      return Failure(output.error);
    }
    var unusedEips := KeepWhere(output.value, IsUnassociated);
    return Success(unusedEips);
  }

  // ---------------------------------------------------------------- stopped instances

  datatype EbsDevice = EbsDevice(volumeId: Option<string>)
  datatype BlockDeviceMapping = BlockDeviceMapping(ebs: Option<EbsDevice>)
  datatype Instance = Instance(
    instanceId: Option<string>,
    stateTransitionReason: Option<string>,
    blockDeviceMappings: seq<BlockDeviceMapping>)

  datatype Volume = Volume(volumeId: Option<string>, sizeGiB: Option<int>)

  /** What GetStoppedInstancesInfo returns besides its error. */
  datatype StoppedInfo = StoppedInfo(instances: seq<Instance>, volumes: seq<Volume>)

  /** The EBS volume IDs of an instance's mappings, "" for a missing ID. */
  function MappingVolumeIds(mappings: seq<BlockDeviceMapping>): seq<string>
  {
    if mappings == [] then []
    else
      var last := mappings[|mappings| - 1];
      MappingVolumeIds(mappings[..|mappings| - 1]) + (if last.ebs.Some? then [last.ebs.value.volumeId.GetOr("")] else [])
  }

  /** The EBS volume IDs of every stopped instance, whatever its stop reason says. */
  function VolumeIds(instances: seq<Instance>): seq<string>
  {
    if instances == [] then []
    else VolumeIds(instances[..|instances| - 1]) + MappingVolumeIds(instances[|instances| - 1].blockDeviceMappings)
  }

  lemma {:induction false} VolumeIdsAppend(a: seq<Instance>, b: seq<Instance>)
    ensures VolumeIds(a + b) == VolumeIds(a) + VolumeIds(b)
    decreases |b|
  {
    if b == [] {
      assert a + b == a;
    } else {
      var b' := b[..|b| - 1];
      assert (a + b)[..|a + b| - 1] == a + b';
      VolumeIdsAppend(a, b');
    }
  }

  lemma {:induction false} MappingIdsCover(mappings: seq<BlockDeviceMapping>, m: nat)
    requires m < |mappings| && mappings[m].ebs.Some?
    ensures mappings[m].ebs.value.volumeId.GetOr("") in MappingVolumeIds(mappings)
  {
    var init := mappings[..|mappings| - 1];
    if m < |init| {
      MappingIdsCover(init, m);
    }
  }

  /** The volume of every EBS mapping of every instance is looked up, reported or not. */
  lemma {:induction false} VolumeIdsCoverAll(instances: seq<Instance>, i: nat, m: nat)
    requires i < |instances| && m < |instances[i].blockDeviceMappings|
    requires instances[i].blockDeviceMappings[m].ebs.Some?
    ensures instances[i].blockDeviceMappings[m].ebs.value.volumeId.GetOr("") in VolumeIds(instances)
  {
    var init := instances[..|instances| - 1];
    if i < |init| {
      VolumeIdsCoverAll(init, i, m);
    } else {
      MappingIdsCover(instances[i].blockDeviceMappings, m);
    }
  }

  /** The instance's transition reason parses to a stop time before now - 30 days. */
  predicate StoppedBefore(instance: Instance, now: int, parse: TransitionDate.LayoutParser)
  {
    var stoppedAt := TransitionDate.ParseTransitionDate(instance.stateTransitionReason.GetOr(""), parse);
    stoppedAt.Success? && stoppedAt.value < now - 30 * Numbers.SecondsPerDay
  }

  function LongStopped(now: int, parse: TransitionDate.LayoutParser): Instance -> bool
  {
    instance => StoppedBefore(instance, now, parse)
  }

  /** The mapping loop of one instance. */
  method CollectVolumeIds(mappings: seq<BlockDeviceMapping>) returns (ids: seq<string>)
    ensures ids == MappingVolumeIds(mappings)
  {
    ids := [];
    for m := 0 to |mappings|
      invariant ids == MappingVolumeIds(mappings[..m])
    {
      assert mappings[..m + 1][..m] == mappings[..m];
      if mappings[m].ebs.Some? {
        ids := ids + [mappings[m].ebs.value.volumeId.GetOr("")];
      }
    }
    assert mappings[..|mappings|] == mappings;
  }

  /** The instance loop of one reservation: every volume ID, and the instances stopped over 30 days. */
  method ScanReservation(instances: seq<Instance>, now: int, parse: TransitionDate.LayoutParser)
    returns (ids: seq<string>, kept: seq<Instance>)
    ensures ids == VolumeIds(instances)
    ensures kept == Filter(instances, LongStopped(now, parse))
  {
    ids := [];
    kept := [];
    for i := 0 to |instances|
      invariant ids == VolumeIds(instances[..i])
      invariant kept == Filter(instances[..i], LongStopped(now, parse))
    {
      assert instances[..i + 1][..i] == instances[..i];
      var instance := instances[i];
      var mappingIds := CollectVolumeIds(instance.blockDeviceMappings);
      ids := ids + mappingIds;
      var stoppedAt := TransitionDate.ParseTransitionDate(instance.stateTransitionReason.GetOr(""), parse);
      if stoppedAt.Failure? {
        continue;
      }
      if stoppedAt.value < now - 30 * Numbers.SecondsPerDay {
        kept := kept + [instance];
      }
    }
    assert instances[..|instances|] == instances;
  }

  /**
   * GetStoppedInstancesInfo: the instances stopped more than 30 days ago,
   * and the volumes of every stopped instance, looked up only when there
   * is at least one volume ID.
   */
  method StoppedInstancesInfo(output: Outcome<seq<seq<Instance>>>, now: int, parse: TransitionDate.LayoutParser,
                              describeVolumes: seq<string> -> Outcome<seq<Volume>>)
    returns (r: Outcome<StoppedInfo>)
    ensures output.Failure? ==> r == Failure(output.error)
    ensures output.Success? ==>
      var instances := Flatten(output.value);
      var ids := VolumeIds(instances);
      var kept := Filter(instances, LongStopped(now, parse));
      (ids == [] ==> r == Success(StoppedInfo(kept, [])))
      && (ids != [] ==> r == match describeVolumes(ids)
                             case Failure(e) => Failure(e)
                             case Success(volumes) => Success(StoppedInfo(kept, volumes)))
  {
    if output.Failure? {
      return Failure(output.error);
    }
    var reservations := output.value;
    var volumeIds: seq<string> := [];
    var stopped: seq<Instance> := [];
    for i := 0 to |reservations|
      invariant volumeIds == VolumeIds(Flatten(reservations[..i]))
      invariant stopped == Filter(Flatten(reservations[..i]), LongStopped(now, parse))
    {
      assert reservations[..i + 1][..i] == reservations[..i];
      var ids, kept := ScanReservation(reservations[i], now, parse);
      VolumeIdsAppend(Flatten(reservations[..i]), reservations[i]);
      FilterAppend(Flatten(reservations[..i]), reservations[i], LongStopped(now, parse));
      volumeIds := volumeIds + ids;
      stopped := stopped + kept;
    }
    assert reservations[..|reservations|] == reservations;
    var volumes: seq<Volume> := [];
    if |volumeIds| > 0 {
      var described := describeVolumes(volumeIds);
      if described.Failure? {
        return Failure(described.error);
      }
      volumes := described.value;
    }
    return Success(StoppedInfo(stopped, volumes));
  }

  // ---------------------------------------------------------------- reserved instances

  datatype ReservedInstance = ReservedInstance(
    reservedInstancesId: Option<string>,
    instanceType: string,
    state: string,
    end: Option<int>)

  datatype RiExpirationInfo = RiExpirationInfo(
    reservedInstanceId: string,
    instanceType: string,
    expirationDate: int,
    daysUntilExpiry: int,
    state: string,
    status: string)

  /**
   * The records of one RI: "EXPIRING SOON" when active and ending before
   * now + 30 days (no lower bound), "RECENTLY EXPIRED" when it ended in the
   * last 30 days.
   */
  function RiRecords(ri: ReservedInstance, now: int): seq<RiExpirationInfo>
  {
    match ri.end
    case None => []
    case Some(endTime) =>
      var daysDiff := Numbers.WholeDays(endTime - now);
      var info := RiExpirationInfo(ri.reservedInstancesId.GetOr(""), ri.instanceType, endTime, daysDiff, ri.state, "");
      (if ri.state == ReservedInstanceActive && endTime < now + 30 * Numbers.SecondsPerDay
       then [info.(status := "EXPIRING SOON")] else [])
      + (if endTime > now - 30 * Numbers.SecondsPerDay && endTime < now
         then [info.(status := "RECENTLY EXPIRED")] else [])
  }

  /**
   * An RI yields at most two records; an expiring-soon one has fewer than 30
   * days left and an active RI that ended in the last 30 days yields both.
   */
  lemma RiRecordsCases(ri: ReservedInstance, now: int)
    ensures |RiRecords(ri, now)| <= 2
    ensures forall r :: r in RiRecords(ri, now) ==>
      (r.status == "EXPIRING SOON" && r.state == ReservedInstanceActive && r.daysUntilExpiry < 30)
      || (r.status == "RECENTLY EXPIRED" && -30 < r.daysUntilExpiry <= 0)
    ensures ri.end.Some? && ri.state == ReservedInstanceActive
            && now - 30 * Numbers.SecondsPerDay < ri.end.value < now
            ==> |RiRecords(ri, now)| == 2
  {
  }

  function RiWaste(ris: seq<ReservedInstance>, now: int): seq<RiExpirationInfo>
  {
    if ris == [] then [] else RiWaste(ris[..|ris| - 1], now) + RiRecords(ris[|ris| - 1], now)
  }

  /** At most two records per reserved instance. */
  lemma {:induction false} RiWasteLength(ris: seq<ReservedInstance>, now: int)
    ensures |RiWaste(ris, now)| <= 2 * |ris|
  {
    if ris != [] {
      RiWasteLength(ris[..|ris| - 1], now);
      RiRecordsCases(ris[|ris| - 1], now);
    }
  }

  /** The body of the RI loop for one reserved instance. */
  method AppendRiRecords(results: seq<RiExpirationInfo>, ri: ReservedInstance, now: int)
    returns (next: seq<RiExpirationInfo>)
    ensures next == results + RiRecords(ri, now)
  {
    next := results;
    if ri.end.None? {
      return;
    }
    var endTime := ri.end.value;
    var daysDiff := Numbers.WholeDays(endTime - now);
    var info := RiExpirationInfo(ri.reservedInstancesId.GetOr(""), ri.instanceType, endTime, daysDiff, ri.state, "");
    if ri.state == ReservedInstanceActive && endTime < now + 30 * Numbers.SecondsPerDay {
      next := next + [info.(status := "EXPIRING SOON")];
    }
    if endTime > now - 30 * Numbers.SecondsPerDay && endTime < now {
      next := next + [info.(status := "RECENTLY EXPIRED")];
    }
  }

  /** GetReservedInstanceExpiringOrExpired30DaysWaste. */
  method ReservedInstanceWaste(output: Outcome<seq<ReservedInstance>>, now: int) returns (r: Outcome<seq<RiExpirationInfo>>)
    ensures output.Failure? ==> r == Failure(output.error)
    ensures output.Success? ==> r == Success(RiWaste(output.value, now))
  {
    if output.Failure? {
      return Failure(output.error);
    }
    var ris := output.value;
    var results: seq<RiExpirationInfo> := [];
    for i := 0 to |ris|
      invariant results == RiWaste(ris[..i], now)
    {
      assert ris[..i + 1][..i] == ris[..i];
      results := AppendRiRecords(results, ris[i], now);
    }
    assert ris[..|ris|] == ris;
    return Success(results);
  }
}
