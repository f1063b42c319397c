// service/gcp/compute/service.go: GCP waste detection. A listing is an
// abstract answer: the error of the zone or region list, or one answer per
// zone or region (its items, or the error of that zone's call). RFC 3339
// parsing is a parameter; instants are whole seconds.
module GcpCompute {
  import opened Wrappers
  import opened Reads
  import Model
  import Strings
  import Numbers

  const DiskReady := "READY"
  const AddressReserved := "RESERVED"
  const CommitmentActive := "ACTIVE"

  datatype Disk = Disk(name: string, sizeGb: int, users: seq<string>, status: string)

  /** A disk attached to an instance: the URL of its source disk ("" when none) and its size. */
  datatype AttachedDisk = AttachedDisk(source: string, diskSizeGb: int)

  datatype Instance = Instance(name: string, lastStopTimestamp: string, creationTimestamp: string,
                               disks: seq<AttachedDisk>)

  datatype Address = Address(name: string, address: string, users: seq<string>, status: string)

  datatype Commitment = Commitment(name: string, commitmentType: string, status: string, endTimestamp: string)

  /** The zone (or region) list: its error, or the answer of each zone's call. */
  type Listing<T> = Outcome<seq<Outcome<seq<T>>>>

  /** time.Parse(time.RFC3339, ·): the instant in seconds, or None when the text does not parse. */
  type Rfc3339 = string -> Option<int>

  // ---------------------------------------------------------------- resource names

  /** extractResourceName: scans back to the last '/', and agrees with the last Split segment. */
  method ExtractResourceName(resourceURL: string) returns (name: string)
    ensures name == Strings.LastSegment(resourceURL, '/')
  {
    var i := |resourceURL|;
    while i > 0
      invariant 0 <= i <= |resourceURL|
      invariant '/' !in resourceURL[i..]
    {
      if resourceURL[i - 1] == '/' {
        name := resourceURL[i..];
        Strings.LastSegmentUnique(resourceURL, '/', name);
        return;
      }
      assert resourceURL[i - 1..] == [resourceURL[i - 1]] + resourceURL[i..];
      i := i - 1;
    }
    name := resourceURL;
    Strings.LastSegmentUnique(resourceURL, '/', name);
  }

  // ---------------------------------------------------------------- disks

  /** A disk is unattached when nothing uses it and it is READY. */
  predicate IsUnattached(d: Disk)
  {
    |d.users| == 0 && d.status == DiskReady
  }

  /** GetUnattachedDisks: zones whose disk listing fails are skipped; a failed zone list is an error. */
  method UnattachedDisks(zones: Listing<Disk>) returns (r: Outcome<seq<Disk>>)
    ensures zones.Failure? ==> r == Failure("failed to list zones: " + zones.error)
    ensures zones.Success? ==> r == Success(Filter(Flatten(Successes(zones.value)), IsUnattached))
  {
    if zones.Failure? {
      return Failure("failed to list zones: " + zones.error);
    }
    var unattached := KeepFromAnswers(zones.value, IsUnattached);
    return Success(unattached);
  }

  /** The volume reported for an unattached disk: its size converted to int32. */
  function UnusedVolumeOf(d: Disk): (v: Model.UnusedVolume)
    ensures v.id == d.name && v.status == "available"
    ensures 0 <= d.sizeGb < 0x8000_0000 ==> v.sizeGB == d.sizeGb
  {
    Model.UnusedVolume(d.name, Numbers.Int32(d.sizeGb), "available")
  }

  /** GetUnusedVolumes: one "available" volume per unattached disk, in listing order. */
  method UnusedVolumes(zones: Listing<Disk>) returns (r: Outcome<seq<Model.UnusedVolume>>)
    ensures zones.Failure? ==> r == Failure("failed to list zones: " + zones.error)
    ensures zones.Success? ==>
      var disks := Filter(Flatten(Successes(zones.value)), IsUnattached);
      r.Success? && |r.value| == |disks| && forall i :: 0 <= i < |disks| ==> r.value[i] == UnusedVolumeOf(disks[i])
  {
    var disks := UnattachedDisks(zones);
    if disks.Failure? {
      return Failure(disks.error);
    }
    var result: seq<Model.UnusedVolume> := [];
    for i := 0 to |disks.value|
      invariant |result| == i
      invariant forall j :: 0 <= j < i ==> result[j] == UnusedVolumeOf(disks.value[j])
    {
      var disk := disks.value[i];
      result := result + [Model.UnusedVolume(disk.name, Numbers.Int32(disk.sizeGb), "available")];
    }
    return Success(result);
  }

  // ---------------------------------------------------------------- stopped instances

  /** GetTerminatedVMs: the instances of every zone that answered. */
  method TerminatedVMs(zones: Listing<Instance>) returns (r: Outcome<seq<Instance>>)
    ensures zones.Failure? ==> r == Failure("failed to list zones: " + zones.error)
    ensures zones.Success? ==> r == Success(Flatten(Successes(zones.value)))
  {
    if zones.Failure? {
      return Failure("failed to list zones: " + zones.error);
    }
    var terminated := GatherAnswers(zones.value);
    return Success(terminated);
  }

  /** When the instance stopped: its last stop time when set, else its creation time; None when that does not parse. */
  function StoppedAt(instance: Instance, parse: Rfc3339): Option<int>
  {
    if instance.lastStopTimestamp != "" then parse(instance.lastStopTimestamp)
    else parse(instance.creationTimestamp)
  }

  /** The record of an instance stopped before now - 30 days, with its whole days stopped. */
  function StoppedRecord(instance: Instance, now: int, parse: Rfc3339): Option<Model.StoppedInstance>
  {
    match StoppedAt(instance, parse)
    case None => None
    case Some(stoppedAt) =>
      if stoppedAt < now - 30 * Numbers.SecondsPerDay
      then Some(Model.StoppedInstance(instance.name, instance.name, Numbers.WholeDays(now - stoppedAt)))
      else None
  }

  /** A reported instance has been stopped at least 30 whole days, and its ID is its name. */
  lemma StoppedRecordDays(instance: Instance, now: int, parse: Rfc3339)
    ensures match StoppedRecord(instance, now, parse)
            case Some(s) => s.stoppedDays >= 30 && s.id == s.name == instance.name
            case None => true
  {
  }

  /** The volume of one attached disk: named by the last segment of its source URL. */
  function AttachedVolumeOf(d: AttachedDisk): Model.UnusedVolume
  {
    Model.UnusedVolume(Strings.LastSegment(d.source, '/'), Numbers.Int32(d.diskSizeGb), "attached_stopped")
  }

  /** The volumes of an instance's disks that have a source, in order. */
  function SourcedVolumes(disks: seq<AttachedDisk>): seq<Model.UnusedVolume>
  {
    if disks == [] then []
    else
      var last := disks[|disks| - 1];
      SourcedVolumes(disks[..|disks| - 1]) + (if last.source != "" then [AttachedVolumeOf(last)] else [])
  }

  /** The report after one more instance: a reported instance adds itself and its sourced disks. */
  function Extend(report: Model.StoppedReport, instance: Instance, now: int, parse: Rfc3339): Model.StoppedReport
  {
    match StoppedRecord(instance, now, parse)
    case None => report
    case Some(s) =>
      Model.StoppedReport(report.instances + [s], report.attachedVolumes + SourcedVolumes(instance.disks))
  }

  /** What GetStoppedInstances reports for the terminated instances, instance by instance. */
  function StoppedReportOf(instances: seq<Instance>, now: int, parse: Rfc3339): Model.StoppedReport
  {
    if instances == [] then Model.StoppedReport([], [])
    else Extend(StoppedReportOf(instances[..|instances| - 1], now, parse), instances[|instances| - 1], now, parse)
  }

  lemma {:induction false} SourcedVolumesShape(disks: seq<AttachedDisk>)
    ensures |SourcedVolumes(disks)| <= |disks|
    ensures forall v :: v in SourcedVolumes(disks) ==> v.status == "attached_stopped" && '/' !in v.id
  {
    if disks != [] {
      SourcedVolumesShape(disks[..|disks| - 1]);
    }
  }

  /**
   * At most one record per instance, every one stopped at least 30 days with
   * ID equal to name, and every attached volume "attached_stopped" and named
   * without any '/'.
   */
  lemma {:induction false} StoppedReportShape(instances: seq<Instance>, now: int, parse: Rfc3339)
    ensures var report := StoppedReportOf(instances, now, parse);
      |report.instances| <= |instances|
      && (forall s :: s in report.instances ==> s.stoppedDays >= 30 && s.id == s.name)
      && (forall v :: v in report.attachedVolumes ==> v.status == "attached_stopped" && '/' !in v.id)
  {
    if instances != [] {
      var last := instances[|instances| - 1];
      StoppedReportShape(instances[..|instances| - 1], now, parse);
      StoppedRecordDays(last, now, parse);
      SourcedVolumesShape(last.disks);
    }
  }

  /** The disk loop of one reported instance. */
  method DiskVolumes(disks: seq<AttachedDisk>) returns (volumes: seq<Model.UnusedVolume>)
    ensures volumes == SourcedVolumes(disks)
  {
    volumes := [];
    for j := 0 to |disks|
      invariant volumes == SourcedVolumes(disks[..j])
    {
      assert disks[..j + 1][..j] == disks[..j];
      var disk := disks[j];
      if disk.source != "" {
        var diskName := ExtractResourceName(disk.source);
        volumes := volumes + [Model.UnusedVolume(diskName, Numbers.Int32(disk.diskSizeGb), "attached_stopped")];
      }
    }
    assert disks[..|disks|] == disks;
  }

  /** The body of GetStoppedInstances' loop for one instance. */
  method AddInstance(report: Model.StoppedReport, instance: Instance, now: int, parse: Rfc3339)
    returns (next: Model.StoppedReport)
    ensures next == Extend(report, instance, now, parse)
  {
    next := report;
    var stoppedAt: int;
    if instance.lastStopTimestamp != "" {
      var parsed := parse(instance.lastStopTimestamp);
      if parsed.None? {
        return;
      }
      stoppedAt := parsed.value;
    } else {
      var parsed := parse(instance.creationTimestamp);
      if parsed.None? {
        return;
      }
      stoppedAt := parsed.value;
    }
    if stoppedAt < now - 30 * Numbers.SecondsPerDay {
      var days := Numbers.WholeDays(now - stoppedAt);
      var volumes := DiskVolumes(instance.disks);
      next := Model.StoppedReport(report.instances + [Model.StoppedInstance(instance.name, instance.name, days)],
                                  report.attachedVolumes + volumes);
    }
  }

  /** GetStoppedInstances: instances stopped more than 30 days ago, with their attached disks. */
  method StoppedInstances(zones: Listing<Instance>, now: int, parse: Rfc3339) returns (r: Outcome<Model.StoppedReport>)
    ensures zones.Failure? ==> r == Failure("failed to list zones: " + zones.error)
    ensures zones.Success? ==> r == Success(StoppedReportOf(Flatten(Successes(zones.value)), now, parse))
  {
    var listed := TerminatedVMs(zones);
    if listed.Failure? {
      return Failure(listed.error);
    }
    var instances := listed.value;
    var report := Model.StoppedReport([], []);
    for i := 0 to |instances|
      invariant report == StoppedReportOf(instances[..i], now, parse)
    {
      assert instances[..i + 1][..i] == instances[..i];
      report := AddInstance(report, instances[i], now, parse);
    }
    assert instances[..|instances|] == instances;
    return Success(report);
  }

  // ---------------------------------------------------------------- addresses

  /** An address is unassigned when nothing uses it and it is RESERVED. */
  predicate IsUnassigned(a: Address)
  {
    |a.users| == 0 && a.status == AddressReserved
  }

  /** The unassigned global addresses (none when that listing failed), then the regional ones. */
  function Unassigned(global: Outcome<seq<Address>>, regions: seq<Outcome<seq<Address>>>): seq<Address>
  {
    (if global.Success? then Filter(global.value, IsUnassigned) else [])
    + Filter(Flatten(Successes(regions)), IsUnassigned)
  }

  /** An address is reported exactly when it is unassigned and some listing that answered holds it. */
  lemma UnassignedExactly(global: Outcome<seq<Address>>, regions: seq<Outcome<seq<Address>>>, a: Address)
    ensures a in Unassigned(global, regions) <==>
      IsUnassigned(a) && ((global.Success? && a in global.value) || a in Flatten(Successes(regions)))
  {
    if global.Success? {
      FilterMembers(global.value, IsUnassigned, a);
    }
    FilterMembers(Flatten(Successes(regions)), IsUnassigned, a);
  }

  /**
   * GetUnassignedExternalIPs: a failed global listing is ignored, a failed
   * region list is an error, and a region whose listing fails is skipped.
   */
  method UnassignedExternalIPs(global: Outcome<seq<Address>>, regions: Listing<Address>) returns (r: Outcome<seq<Address>>)
    ensures regions.Failure? ==> r == Failure("failed to list regions: " + regions.error)
    ensures regions.Success? ==> r == Success(Unassigned(global, regions.value))
  {
    var unassigned: seq<Address> := [];
    if global.Success? {
      unassigned := KeepWhere(global.value, IsUnassigned);
    }
    if regions.Failure? {
      return Failure("failed to list regions: " + regions.error);
    }
    var regional := KeepFromAnswers(regions.value, IsUnassigned);
    return Success(unassigned + regional);
  }

  /** GetUnusedIPs: one record per unassigned address, its name as allocation ID. */
  method UnusedIPs(global: Outcome<seq<Address>>, regions: Listing<Address>) returns (r: Outcome<seq<Model.UnusedIP>>)
    ensures regions.Failure? ==> r == Failure("failed to list regions: " + regions.error)
    ensures regions.Success? ==>
      var addresses := Unassigned(global, regions.value);
      r.Success? && |r.value| == |addresses|
      && forall i :: 0 <= i < |addresses| ==> r.value[i] == Model.UnusedIP(addresses[i].address, addresses[i].name)
  {
    var addresses := UnassignedExternalIPs(global, regions);
    if addresses.Failure? {
      return Failure(addresses.error);
    }
    var result: seq<Model.UnusedIP> := [];
    for i := 0 to |addresses.value|
      invariant |result| == i
      invariant forall j :: 0 <= j < i ==> result[j] == Model.UnusedIP(addresses.value[j].address, addresses.value[j].name)
    {
      result := result + [Model.UnusedIP(addresses.value[i].address, addresses.value[i].name)];
    }
    return Success(result);
  }

  // ---------------------------------------------------------------- commitments

  /** GetCommittedUseDiscounts: the commitments of every region that answered. */
  method CommittedUseDiscounts(regions: Listing<Commitment>) returns (r: Outcome<seq<Commitment>>)
    ensures regions.Failure? ==> r == Failure("failed to list regions: " + regions.error)
    ensures regions.Success? ==> r == Success(Flatten(Successes(regions.value)))
  {
    if regions.Failure? {
      return Failure("failed to list regions: " + regions.error);
    }
    var all := GatherAnswers(regions.value);
    return Success(all);
  }

  /** The records of one commitment: "expiring" when ACTIVE and ending in the next 30 days, "expired" when it ended in the last 30. */
  function CommitmentRecords(c: Commitment, now: int, parse: Rfc3339): seq<Model.Reservation>
  {
    match parse(c.endTimestamp)
    case None => []
    case Some(endTime) =>
      var days := Numbers.WholeDays(endTime - now);
      (if c.status == CommitmentActive && endTime < now + 30 * Numbers.SecondsPerDay && endTime > now
       then [Model.Reservation(c.name, c.commitmentType, "expiring", days)] else [])
      + (if endTime > now - 30 * Numbers.SecondsPerDay && endTime < now
         then [Model.Reservation(c.name, c.commitmentType, "expired", days)] else [])
  }

  /** The two windows are disjoint: a commitment yields at most one record, whose days fit its window. */
  lemma OneRecordPerCommitment(c: Commitment, now: int, parse: Rfc3339)
    ensures |CommitmentRecords(c, now, parse)| <= 1
    ensures forall r :: r in CommitmentRecords(c, now, parse) ==>
      (r.status == "expiring" && 0 <= r.daysUntilExpiry < 30)
      || (r.status == "expired" && -30 < r.daysUntilExpiry <= 0)
  {
  }

  function Classified(commitments: seq<Commitment>, now: int, parse: Rfc3339): seq<Model.Reservation>
  {
    if commitments == [] then []
    else Classified(commitments[..|commitments| - 1], now, parse)
         + CommitmentRecords(commitments[|commitments| - 1], now, parse)
  }

  /** At most one record per commitment. */
  lemma {:induction false} ClassifiedLength(commitments: seq<Commitment>, now: int, parse: Rfc3339)
    ensures |Classified(commitments, now, parse)| <= |commitments|
  {
    if commitments != [] {
      ClassifiedLength(commitments[..|commitments| - 1], now, parse);
      OneRecordPerCommitment(commitments[|commitments| - 1], now, parse);
    }
  }

  /** The body of GetExpiringReservations' loop for one commitment. */
  method AppendCommitmentRecords(records: seq<Model.Reservation>, c: Commitment, now: int, parse: Rfc3339)
    returns (result: seq<Model.Reservation>)
    ensures result == records + CommitmentRecords(c, now, parse)
  {
    result := records;
    var parsed := parse(c.endTimestamp);
    if parsed.None? {
      return;
    }
    var endTime := parsed.value;
    var daysDiff := Numbers.WholeDays(endTime - now);
    if c.status == CommitmentActive && endTime < now + 30 * Numbers.SecondsPerDay && endTime > now {
      result := result + [Model.Reservation(c.name, c.commitmentType, "expiring", daysDiff)];
    }
    if endTime > now - 30 * Numbers.SecondsPerDay && endTime < now {
      result := result + [Model.Reservation(c.name, c.commitmentType, "expired", daysDiff)];
    }
  }

  /** GetExpiringReservations: the records of every commitment of every region that answered. */
  method ExpiringReservations(regions: Listing<Commitment>, now: int, parse: Rfc3339) returns (r: Outcome<seq<Model.Reservation>>)
    ensures regions.Failure? ==> r == Failure("failed to list regions: " + regions.error)
    ensures regions.Success? ==> r == Success(Classified(Flatten(Successes(regions.value)), now, parse))
  {
    var listed := CommittedUseDiscounts(regions);
    if listed.Failure? {
      return Failure(listed.error);
    }
    var commitments := listed.value;
    var result: seq<Model.Reservation> := [];
    for i := 0 to |commitments|
      invariant result == Classified(commitments[..i], now, parse)
    {
      assert commitments[..i + 1][..i] == commitments[..i];
      result := AppendCommitmentRecords(result, commitments[i], now, parse);
    }
    assert commitments[..|commitments|] == commitments;
    return Success(result);
  }
}
