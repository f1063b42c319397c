// service/azure/compute/service.go: Azure waste detection. Each ARM pager is an
// abstract sequence of pages, any of which may fail; the per-VM InstanceView
// call is an abstract answer carried with the VM. Instants are whole seconds.
module AzureCompute {
  import opened Wrappers
  import opened Reads
  import Model
  import Strings
  import Numbers

  const DiskStateUnattached := "Unattached"
  const DeallocatedPrefix := "PowerState/deallocated"
  const ResourceGroupsSegment := "resourceGroups"
  const ProvisioningSucceeded := "Succeeded"

  /** A managed disk: its name and, when present, its size and state. */
  datatype Disk = Disk(name: Option<string>, properties: Option<DiskProperties>)
  datatype DiskProperties = DiskProperties(diskSizeGB: Option<int>, diskState: Option<string>)

  /** A disk a VM uses: the ID of its managed disk (nil when unmanaged) and its size. */
  datatype VMDisk = VMDisk(managedDiskId: Option<string>, diskSizeGB: Option<int>)

  datatype StorageProfile = StorageProfile(osDisk: Option<VMDisk>, dataDisks: seq<VMDisk>)

  /**
   * A VM as the pager lists it, with the answer of its InstanceView call:
   * the status codes (a nil code is None), or the call's error.
   */
  datatype VM = VM(id: Option<string>, name: Option<string>, storageProfile: Option<StorageProfile>,
                   instanceView: Outcome<seq<Option<string>>>)

  datatype PublicIP = PublicIP(name: Option<string>, properties: Option<IPProperties>)
  /** A public IP's properties: its address, and whether an IP configuration is attached. */
  datatype IPProperties = IPProperties(ipAddress: Option<string>, hasIPConfiguration: bool)

  datatype ReservationOrder = ReservationOrder(name: Option<string>, properties: Option<OrderProperties>)
  datatype OrderProperties = OrderProperties(displayName: Option<string>, expiryDate: Option<int>,
                                             provisioningState: Option<string>)

  // ---------------------------------------------------------------- resource IDs

  /** extractResourceName: the text after the last '/'. */
  function ExtractResourceName(resourceID: string): (name: string)
    ensures '/' !in name
    ensures |name| <= |resourceID| && resourceID[|resourceID| - |name|..] == name
  {
    Strings.LastSegment(resourceID, '/')
  }

  /** The whole ID when it has no '/', and "" when it ends in one. */
  lemma ResourceNameCases(resourceID: string)
    ensures '/' !in resourceID ==> ExtractResourceName(resourceID) == resourceID
    ensures resourceID != [] && resourceID[|resourceID| - 1] == '/' ==> ExtractResourceName(resourceID) == ""
  {
  }

  /** extractResourceGroup's segment test: "resourceGroups" in any case. */
  predicate IsGroupsSegment(segment: string)
  {
    Strings.EqualFold(segment, ResourceGroupsSegment)
  }

  /** Position i passes `isKey` and has a successor. */
  predicate IsKeyAt(parts: seq<string>, i: nat, isKey: string -> bool)
  {
    i + 1 < |parts| && isKey(parts[i])
  }

  /** The first position from k on that is a key with a successor. */
  function KeyIndexFrom(parts: seq<string>, k: nat, isKey: string -> bool): (r: Option<nat>)
    ensures r.Some? ==> k <= r.value && r.value + 1 < |parts|
    decreases |parts| - k
  {
    if k >= |parts| then None
    else if IsKeyAt(parts, k, isKey) then Some(k)
    else KeyIndexFrom(parts, k + 1, isKey)
  }

  /** KeyIndexFrom finds the first key at or after k, and None means there is none. */
  lemma {:induction false} KeyIndexIsFirst(parts: seq<string>, k: nat, isKey: string -> bool)
    ensures var r := KeyIndexFrom(parts, k, isKey);
            (r.Some? ==> k <= r.value && IsKeyAt(parts, r.value, isKey)
                         && forall j :: k <= j < r.value ==> !IsKeyAt(parts, j, isKey))
            && (r.None? ==> forall j :: k <= j < |parts| ==> !IsKeyAt(parts, j, isKey))
    decreases |parts| - k
  {
    if k < |parts| && !IsKeyAt(parts, k, isKey) {
      KeyIndexIsFirst(parts, k + 1, isKey);
    }
  }

  /** The loop of extractResourceGroup: the segment after the first key that has a successor. */
  method SegmentAfterKey(parts: seq<string>, isKey: string -> bool) returns (segment: string)
    ensures match KeyIndexFrom(parts, 0, isKey)
            case Some(i) => segment == parts[i + 1]
            case None => segment == ""
  {
    ghost var first := KeyIndexFrom(parts, 0, isKey);
    for i := 0 to |parts|
      invariant KeyIndexFrom(parts, i, isKey) == first
    {
      if isKey(parts[i]) && i + 1 < |parts| {
        return parts[i + 1];
      }
    }
    return "";
  }

  /**
   * extractResourceGroup: the segment after the first "resourceGroups"
   * segment (in any case) that has a successor, or "" when there is none.
   */
  method ExtractResourceGroup(resourceID: string) returns (group: string)
    ensures var parts := Strings.Split(resourceID, '/');
            match KeyIndexFrom(parts, 0, IsGroupsSegment)
            case Some(i) => group == parts[i + 1]
            case None => group == ""
  {
    group := SegmentAfterKey(Strings.Split(resourceID, '/'), IsGroupsSegment);
  }

  // ---------------------------------------------------------------- pagers

  /**
   * The pager loops of GetUnattachedDisks and GetUnassociatedPublicIPs: the
   * items of every page that pass `keep`, or an error naming what was listed
   * as soon as a page fails.
   */
  method ListWhere<T>(pages: seq<Read<seq<T>>>, keep: T -> bool, what: string) returns (r: Outcome<seq<T>>)
    ensures FirstReadError(pages).Some? ==> r == Failure("failed to list " + what + ": " + FirstReadError(pages).value)
    ensures FirstReadError(pages).None? ==> r == Success(Filter(Flatten(Items(pages)), keep))
  {
    var listed: seq<T> := [];
    for i := 0 to |pages|
      invariant FirstReadError(pages[..i]).None?
      invariant listed == Filter(Flatten(Items(pages[..i])), keep)
    {
      match pages[i]
      case ReadError(e) =>
        ErrorStep(pages, i);
        return Failure("failed to list " + what + ": " + e);
      case Item(page) =>
        PageStep(pages, i);
        FilterAppend(Flatten(Items(pages[..i])), page, keep);
        var kept := KeepWhere(page, keep);
        listed := listed + kept;
    }
    assert pages[..|pages|] == pages;
    return Success(listed);
  }

  // ---------------------------------------------------------------- disks

  /** A disk is unattached when its state is present and is Unattached. */
  predicate IsUnattached(d: Disk)
  {
    d.properties.Some? && d.properties.value.diskState == Some(DiskStateUnattached)
  }

  /** The volume reported for an unattached disk: status "available", a missing size 0, a missing name "". */
  function UnusedVolumeOf(d: Disk): (v: Model.UnusedVolume)
  {
    var size := if d.properties.Some? then d.properties.value.diskSizeGB.GetOr(0) else 0;
    Model.UnusedVolume(d.name.GetOr(""), size, "available")
  }

  /** GetUnattachedDisks. */
  method UnattachedDisks(pages: seq<Read<seq<Disk>>>) returns (r: Outcome<seq<Disk>>)
    ensures FirstReadError(pages).Some? ==> r == Failure("failed to list disks: " + FirstReadError(pages).value)
    ensures FirstReadError(pages).None? ==> r == Success(Filter(Flatten(Items(pages)), IsUnattached))
  {
    r := ListWhere(pages, IsUnattached, "disks");
  }

  /** GetUnusedVolumes: one "available" volume per unattached disk, in listing order. */
  method UnusedVolumes(pages: seq<Read<seq<Disk>>>) returns (r: Outcome<seq<Model.UnusedVolume>>)
    ensures FirstReadError(pages).Some? ==> r == Failure("failed to list disks: " + FirstReadError(pages).value)
    ensures FirstReadError(pages).None? ==>
      var disks := Filter(Flatten(Items(pages)), IsUnattached);
      r.Success? && |r.value| == |disks|
      && forall i :: 0 <= i < |disks| ==> r.value[i] == UnusedVolumeOf(disks[i]) && r.value[i].status == "available"
  {
    var disks := UnattachedDisks(pages);
    if disks.Failure? {
      return Failure(disks.error);
    }
    var result: seq<Model.UnusedVolume> := [];
    for i := 0 to |disks.value|
      invariant |result| == i
      invariant forall j :: 0 <= j < i ==> result[j] == UnusedVolumeOf(disks.value[j])
    {
      result := result + [UnusedVolumeOf(disks.value[i])];
    }
    return Success(result);
  }

  // ---------------------------------------------------------------- public IPs

  /** A public IP is unassociated when its properties exist and it has no IP configuration. */
  predicate IsUnassociated(ip: PublicIP)
  {
    ip.properties.Some? && !ip.properties.value.hasIPConfiguration
  }

  /** The record of an unassociated IP: its address and its name as allocation ID, "" when missing. */
  function UnusedIPOf(ip: PublicIP): Model.UnusedIP
  {
    var address := if ip.properties.Some? then ip.properties.value.ipAddress.GetOr("") else "";
    Model.UnusedIP(address, ip.name.GetOr(""))
  }

  /** GetUnusedIPs: one record per unassociated public IP, in listing order. */
  method UnusedIPs(pages: seq<Read<seq<PublicIP>>>) returns (r: Outcome<seq<Model.UnusedIP>>)
    ensures FirstReadError(pages).Some? ==> r == Failure("failed to list public IPs: " + FirstReadError(pages).value)
    ensures FirstReadError(pages).None? ==>
      var ips := Filter(Flatten(Items(pages)), IsUnassociated);
      r.Success? && |r.value| == |ips| && forall i :: 0 <= i < |ips| ==> r.value[i] == UnusedIPOf(ips[i])
  {
    var ips := ListWhere(pages, IsUnassociated, "public IPs");
    if ips.Failure? {
      return Failure(ips.error);
    }
    var result: seq<Model.UnusedIP> := [];
    for i := 0 to |ips.value|
      invariant |result| == i
      invariant forall j :: 0 <= j < i ==> result[j] == UnusedIPOf(ips.value[j])
    {
      result := result + [UnusedIPOf(ips.value[i])];
    }
    return Success(result);
  }

  // ---------------------------------------------------------------- stopped VMs

  predicate IsDeallocatedCode(code: Option<string>)
  {
    code.Some? && Strings.HasPrefix(code.value, DeallocatedPrefix)
  }

  /**
   * A VM is deallocated when it has an ID, its instance view answers, and
   * some status code starts with "PowerState/deallocated".
   */
  predicate IsDeallocated(vm: VM)
  {
    vm.id.Some? && vm.instanceView.Success?
    && exists i :: 0 <= i < |vm.instanceView.value| && IsDeallocatedCode(vm.instanceView.value[i])
  }

  /** The status loop, which stops at the first deallocated code. */
  method HasDeallocatedStatus(codes: seq<Option<string>>) returns (isDeallocated: bool)
    ensures isDeallocated <==> exists i :: 0 <= i < |codes| && IsDeallocatedCode(codes[i])
  {
    isDeallocated := false;
    for i := 0 to |codes|
      invariant forall j :: 0 <= j < i ==> !IsDeallocatedCode(codes[j])
    {
      if codes[i].Some? && Strings.HasPrefix(codes[i].value, DeallocatedPrefix) {
        isDeallocated := true;
        break;
      }
    }
  }

  /** One page of VMs: those without an ID or an instance view are skipped silently. */
  method DeallocatedOnPage(page: seq<VM>) returns (kept: seq<VM>)
    ensures kept == Filter(page, IsDeallocated)
  {
    kept := [];
    for j := 0 to |page|
      invariant kept == Filter(page[..j], IsDeallocated)
    {
      assert page[..j + 1][..j] == page[..j];
      var vm := page[j];
      if vm.id.None? || vm.instanceView.Failure? {
        continue;
      }
      var isDeallocated := HasDeallocatedStatus(vm.instanceView.value);
      if isDeallocated {
        kept := kept + [vm];
      }
    }
    assert page[..|page|] == page;
  }

  /** GetDeallocatedVMs: every deallocated VM, in listing order, or the first page error. */
  method DeallocatedVMs(pages: seq<Read<seq<VM>>>) returns (r: Outcome<seq<VM>>)
    ensures FirstReadError(pages).Some? ==> r == Failure("failed to list VMs: " + FirstReadError(pages).value)
    ensures FirstReadError(pages).None? ==> r == Success(Filter(Flatten(Items(pages)), IsDeallocated))
  {
    var listed: seq<VM> := [];
    for i := 0 to |pages|
      invariant FirstReadError(pages[..i]).None?
      invariant listed == Filter(Flatten(Items(pages[..i])), IsDeallocated)
    {
      match pages[i]
      case ReadError(e) =>
        ErrorStep(pages, i);
        return Failure("failed to list VMs: " + e);
      case Item(page) =>
        PageStep(pages, i);
        FilterAppend(Flatten(Items(pages[..i])), page, IsDeallocated);
        var kept := DeallocatedOnPage(page);
        listed := listed + kept;
    }
    assert pages[..|pages|] == pages;
    return Success(listed);
  }

  /** A managed disk of a stopped VM, named by the last segment of its ID, with a missing size 0. */
  function AttachedVolumeOf(d: VMDisk): Model.UnusedVolume
    requires d.managedDiskId.Some?
  {
    Model.UnusedVolume(ExtractResourceName(d.managedDiskId.value), d.diskSizeGB.GetOr(0), "attached_stopped")
  }

  /** The volumes of the data disks that have a managed-disk ID, in order. */
  function DataVolumes(disks: seq<VMDisk>): seq<Model.UnusedVolume>
  {
    if disks == [] then []
    else
      var last := disks[|disks| - 1];
      DataVolumes(disks[..|disks| - 1]) + (if last.managedDiskId.Some? then [AttachedVolumeOf(last)] else [])
  }

  /** A VM's attached volumes: its OS disk, then its data disks, each when it has a managed-disk ID. */
  function VolumesOf(vm: VM): seq<Model.UnusedVolume>
  {
    match vm.storageProfile
    case None => []
    case Some(profile) =>
      (if profile.osDisk.Some? && profile.osDisk.value.managedDiskId.Some?
       then [AttachedVolumeOf(profile.osDisk.value)] else [])
      + DataVolumes(profile.dataDisks)
  }

  /** The attached volumes of the VMs, VM by VM. */
  function AttachedVolumes(vms: seq<VM>): seq<Model.UnusedVolume>
  {
    if vms == [] then [] else AttachedVolumes(vms[..|vms| - 1]) + VolumesOf(vms[|vms| - 1])
  }

  lemma AttachedStep(vms: seq<VM>, i: nat)
    requires i < |vms|
    ensures AttachedVolumes(vms[..i + 1]) == AttachedVolumes(vms[..i]) + VolumesOf(vms[i])
  {
    assert vms[..i + 1][..i] == vms[..i];
  }

  /** Every reported attached volume is "attached_stopped" and named without any '/'. */
  lemma {:induction false} AttachedVolumesShape(vms: seq<VM>)
    ensures forall v :: v in AttachedVolumes(vms) ==> v.status == "attached_stopped" && '/' !in v.id
  {
    if vms != [] {
      AttachedVolumesShape(vms[..|vms| - 1]);
      var vm := vms[|vms| - 1];
      if vm.storageProfile.Some? {
        DataVolumesShape(vm.storageProfile.value.dataDisks);
      }
    }
  }

  lemma {:induction false} DataVolumesShape(disks: seq<VMDisk>)
    ensures forall v :: v in DataVolumes(disks) ==> v.status == "attached_stopped" && '/' !in v.id
  {
    if disks != [] {
      DataVolumesShape(disks[..|disks| - 1]);
    }
  }

  /** The data-disk loop of one VM. */
  method DataDiskVolumes(disks: seq<VMDisk>) returns (volumes: seq<Model.UnusedVolume>)
    ensures volumes == DataVolumes(disks)
  {
    volumes := [];
    for j := 0 to |disks|
      invariant volumes == DataVolumes(disks[..j])
    {
      assert disks[..j + 1][..j] == disks[..j];
      var dataDisk := disks[j];
      if dataDisk.managedDiskId.Some? {
        var diskName := ExtractResourceName(dataDisk.managedDiskId.value);
        volumes := volumes + [Model.UnusedVolume(diskName, dataDisk.diskSizeGB.GetOr(0), "attached_stopped")];
      }
    }
    assert disks[..|disks|] == disks;
  }

  /** The volumes one stopped VM contributes. */
  method VMVolumes(vm: VM) returns (volumes: seq<Model.UnusedVolume>)
    ensures volumes == VolumesOf(vm)
  {
    volumes := [];
    if vm.storageProfile.Some? {
      var profile := vm.storageProfile.value;
      if profile.osDisk.Some? && profile.osDisk.value.managedDiskId.Some? {
        var diskName := ExtractResourceName(profile.osDisk.value.managedDiskId.value);
        volumes := [Model.UnusedVolume(diskName, profile.osDisk.value.diskSizeGB.GetOr(0), "attached_stopped")];
      }
      var data := DataDiskVolumes(profile.dataDisks);
      volumes := volumes + data;
    }
  }

  /** The stopped instance reported for a deallocated VM: its name as ID, days unknown (-1). */
  function StoppedInstanceOf(vm: VM): (s: Model.StoppedInstance)
    ensures s.id == s.name && s.stoppedDays == -1
  {
    Model.StoppedInstance(vm.name.GetOr(""), vm.name.GetOr(""), -1)
  }

  /**
   * GetStoppedInstances: every deallocated VM with StoppedDays -1, and the
   * managed disks of those VMs as attached volumes.
   */
  method StoppedInstances(pages: seq<Read<seq<VM>>>) returns (r: Outcome<Model.StoppedReport>)
    ensures FirstReadError(pages).Some? ==> r == Failure("failed to list VMs: " + FirstReadError(pages).value)
    ensures FirstReadError(pages).None? ==>
      var vms := Filter(Flatten(Items(pages)), IsDeallocated);
      r.Success? && |r.value.instances| == |vms|
      && (forall i :: 0 <= i < |vms| ==> r.value.instances[i] == StoppedInstanceOf(vms[i]))
      && r.value.attachedVolumes == AttachedVolumes(vms)
  {
    var listed := DeallocatedVMs(pages);
    if listed.Failure? {
      return Failure(listed.error);
    }
    var report := ReportOf(listed.value);
    return Success(report);
  }

  /** The instance and volume loop of GetStoppedInstances over the deallocated VMs. */
  method ReportOf(vms: seq<VM>) returns (report: Model.StoppedReport)
    ensures |report.instances| == |vms|
    ensures forall i :: 0 <= i < |vms| ==> report.instances[i] == StoppedInstanceOf(vms[i])
    ensures report.attachedVolumes == AttachedVolumes(vms)
  {
    var stoppedInstances: seq<Model.StoppedInstance> := [];
    var attachedVolumes: seq<Model.UnusedVolume> := [];
    for i := 0 to |vms|
      invariant |stoppedInstances| == i
      invariant forall j :: 0 <= j < i ==> stoppedInstances[j] == StoppedInstanceOf(vms[j])
      invariant attachedVolumes == AttachedVolumes(vms[..i])
    {
      var vm := vms[i];
      var name := vm.name.GetOr("");
      stoppedInstances := stoppedInstances + [Model.StoppedInstance(name, name, -1)];
      var volumes := VMVolumes(vm);
      attachedVolumes := attachedVolumes + volumes;
      AttachedStep(vms, i);
    }
    assert vms[..|vms|] == vms;
    return Model.StoppedReport(stoppedInstances, attachedVolumes);
  }

  // ---------------------------------------------------------------- reservations

  /**
   * GetReservedInstances: the orders of every page read before the first
   * failure; the failure itself is swallowed.
   */
  method ReservedInstances(pages: seq<Read<seq<ReservationOrder>>>) returns (orders: seq<ReservationOrder>)
    ensures orders == Flatten(Items(pages[..CleanLength(pages)]))
  {
    orders := [];
    var n := CleanLength(pages);
    for i := 0 to |pages|
      invariant i <= n
      invariant FirstReadError(pages[..i]).None?
      invariant orders == Flatten(Items(pages[..i]))
    {
      match pages[i]
      case ReadError(_) =>
        return orders;
      case Item(page) =>
        PageStep(pages, i);
        orders := orders + page;
    }
  }

  /** The records of one order: "expiring" within the next 30 days, "expired" within the last 30. */
  function OrderRecords(order: ReservationOrder, now: int): seq<Model.Reservation>
  {
    if order.properties.None? || order.properties.value.expiryDate.None? then []
    else
      var props := order.properties.value;
      var expiry := props.expiryDate.value;
      var name := order.name.GetOr("");
      var displayName := props.displayName.GetOr("");
      var days := Numbers.WholeDays(expiry - now);
      (if props.provisioningState == Some(ProvisioningSucceeded) && expiry < now + 30 * Numbers.SecondsPerDay && expiry > now
       then [Model.Reservation(name, displayName, "expiring", days)] else [])
      + (if expiry > now - 30 * Numbers.SecondsPerDay && expiry < now
         then [Model.Reservation(name, displayName, "expired", days)] else [])
  }

  /** The two windows are disjoint: an order yields at most one record, whose days fit its window. */
  lemma OneRecordPerOrder(order: ReservationOrder, now: int)
    ensures |OrderRecords(order, now)| <= 1
    ensures forall r :: r in OrderRecords(order, now) ==>
      (r.status == "expiring" && 0 <= r.daysUntilExpiry < 30)
      || (r.status == "expired" && -30 < r.daysUntilExpiry <= 0)
  {
  }

  /** The records of the orders, order by order. */
  function Classified(orders: seq<ReservationOrder>, now: int): seq<Model.Reservation>
  {
    if orders == [] then [] else Classified(orders[..|orders| - 1], now) + OrderRecords(orders[|orders| - 1], now)
  }

  /** At most one record per order. */
  lemma {:induction false} ClassifiedLength(orders: seq<ReservationOrder>, now: int)
    ensures |Classified(orders, now)| <= |orders|
  {
    if orders != [] {
      ClassifiedLength(orders[..|orders| - 1], now);
      OneRecordPerOrder(orders[|orders| - 1], now);
    }
  }

  lemma ClassifiedStep(orders: seq<ReservationOrder>, i: nat, now: int)
    requires i < |orders|
    ensures Classified(orders[..i + 1], now) == Classified(orders[..i], now) + OrderRecords(orders[i], now)
  {
    assert orders[..i + 1][..i] == orders[..i];
  }

  /** The body of GetExpiringReservations' loop: the records of one order appended. */
  method AppendOrderRecords(records: seq<Model.Reservation>, order: ReservationOrder, now: int)
    returns (result: seq<Model.Reservation>)
    ensures result == records + OrderRecords(order, now)
  {
    result := records;
    if order.properties.None? {
      return;
    }
    var name := order.name.GetOr("");
    var displayName := order.properties.value.displayName.GetOr("");
    if order.properties.value.expiryDate.Some? {
      var expiryTime := order.properties.value.expiryDate.value;
      var daysDiff := Numbers.WholeDays(expiryTime - now);
      if order.properties.value.provisioningState == Some(ProvisioningSucceeded)
         && expiryTime < now + 30 * Numbers.SecondsPerDay && expiryTime > now {
        result := result + [Model.Reservation(name, displayName, "expiring", daysDiff)];
      }
      if expiryTime > now - 30 * Numbers.SecondsPerDay && expiryTime < now {
        result := result + [Model.Reservation(name, displayName, "expired", daysDiff)];
      }
    }
  }

  /** GetExpiringReservations: the records of every order listed; it never fails. */
  method ExpiringReservations(pages: seq<Read<seq<ReservationOrder>>>, now: int) returns (result: seq<Model.Reservation>)
    ensures result == Classified(Flatten(Items(pages[..CleanLength(pages)])), now)
  {
    var orders := ReservedInstances(pages);
    result := [];
    for i := 0 to |orders|
      invariant result == Classified(orders[..i], now)
    {
      result := AppendOrderRecords(result, orders[i], now);
      ClassifiedStep(orders, i, now);
    }
    assert orders[..|orders|] == orders;
  }
}
