/** Shared devices: the resource manager's allocation table. */
module Devices {
  import opened Sequences
  import opened Instances

  /** `sharedCount` is a signed integer; 0 means that the device may be shared without limit. */
  datatype DeviceInfo = DeviceInfo(name: string, sharedCount: int)

  datatype NodeConfig = NodeConfig(devices: seq<DeviceInfo>, broken: bool)

  datatype AllocError = ConfigBroken | NotAvailable | NoShare

  /** For each allocated device, the instances that hold it, oldest first. */
  type Allocation = map<string, seq<InstanceID>>

  datatype Refused = Refused(device: string, error: AllocError)

  datatype Outcome = Outcome(alloc: Allocation, refused: Option<Refused>)

  function FindDevice(devices: seq<DeviceInfo>, name: string): Option<DeviceInfo> {
    if devices == [] then None
    else if devices[0].name == name then Some(devices[0])
    else FindDevice(devices[1..], name)
  }

  /** The k-th device of the configuration is the first of this name. */
  ghost predicate IsFirst(devices: seq<DeviceInfo>, k: int, name: string) {
    0 <= k < |devices| && devices[k].name == name && forall j :: 0 <= j < k ==> devices[j].name != name
  }

  /** The device that is found is the first of its name. */
  lemma {:induction false} FirstIsFound(devices: seq<DeviceInfo>, name: string)
    ensures FindDevice(devices, name) == None <==> forall info :: info in devices ==> info.name != name
    ensures forall k :: IsFirst(devices, k, name) ==> FindDevice(devices, name) == Some(devices[k])
    ensures FindDevice(devices, name) != None ==> exists k :: IsFirst(devices, k, name)
  {
    if devices != [] {
      FirstIsFound(devices[1..], name);
      assert devices == [devices[0]] + devices[1..];
      if devices[0].name == name {
        assert IsFirst(devices, 0, name);
      } else {
        forall k | IsFirst(devices, k, name) ensures FindDevice(devices, name) == Some(devices[k]) {
          assert IsFirst(devices[1..], k - 1, name);
        }
        if k :| IsFirst(devices[1..], k, name) {
          assert IsFirst(devices, k + 1, name);
        }
      }
    }
  }

  /**
   * Why an instance is refused: the configuration is broken, no device has this name, or the first of this name has a
   * limit that its holders have reached; one that holds the device is not refused again.
   */
  ghost predicate RefusedFor(
      config: NodeConfig, holders: seq<InstanceID>, device: string, id: InstanceID, error: Option<AllocError>)
  {
    && (error == Some(ConfigBroken) <==> config.broken)
    && (error == Some(NotAvailable) <==>
          !config.broken && forall info :: info in config.devices ==> info.name != device)
    && (error == Some(NoShare) <==>
          && !config.broken && id !in holders
          && exists k :: IsFirst(config.devices, k, device) && config.devices[k].sharedCount != 0
                         && config.devices[k].sharedCount <= |holders|)
  }

  lemma RefusalIsExact(config: NodeConfig, alloc: Allocation, device: string, id: InstanceID)
    ensures RefusedFor(config, Holders(alloc, device), device, id, Refusal(config, alloc, device, id))
  {
    FirstIsFound(config.devices, device);
    hide IsFirst;
  }

  function Holders(alloc: Allocation, device: string): seq<InstanceID> {
    if device in alloc then alloc[device] else []
  }

  /** Why `id` cannot get `device`, if it cannot. */
  function Refusal(config: NodeConfig, alloc: Allocation, device: string, id: InstanceID): Option<AllocError> {
    if config.broken then Some(ConfigBroken)
    else match FindDevice(config.devices, device)
      case None => Some(NotAvailable)
      case Some(info) =>
        if id in Holders(alloc, device) then None
        else if info.sharedCount != 0 && |Holders(alloc, device)| >= info.sharedCount then Some(NoShare)
        else None
  }

  function Allocated(alloc: Allocation, device: string, id: InstanceID): Allocation {
    if id in Holders(alloc, device) then alloc else alloc[device := Holders(alloc, device) + [id]]
  }

  /** A device whose last holder leaves disappears from the table. */
  predicate Stays(holders: seq<InstanceID>, id: InstanceID) {
    id in holders ==> RemoveFirst(holders, id) != []
  }

  function Released(alloc: Allocation, id: InstanceID): Allocation {
    map device | device in alloc && Stays(alloc[device], id) :: RemoveFirst(alloc[device], id)
  }

  /** The table when the devices in `remaining` are still to be visited. */
  ghost function PartlyReleased(alloc: Allocation, remaining: set<string>, id: InstanceID): Allocation {
    map device | device in alloc && (device in remaining || Stays(alloc[device], id)) ::
      if device in remaining then alloc[device] else RemoveFirst(alloc[device], id)
  }

  lemma PartlyReleasedStep(alloc: Allocation, remaining: set<string>, device: string, id: InstanceID)
    requires device in remaining && remaining <= alloc.Keys
    ensures var now, next := PartlyReleased(alloc, remaining, id), PartlyReleased(alloc, remaining - {device}, id);
            && now[device] == alloc[device]
            && next == if id !in alloc[device] then now
                       else if RemoveFirst(alloc[device], id) == [] then now - {device}
                       else now[device := RemoveFirst(alloc[device], id)]
  {
    if id !in alloc[device] {
      RemoveFirstAbsent(alloc[device], id);
    }
  }

  function RunAllocations(config: NodeConfig, alloc: Allocation, devices: seq<string>, id: InstanceID): Outcome {
    if devices == [] then Outcome(alloc, None)
    else
      var before := RunAllocations(config, alloc, devices[..|devices| - 1], id);
      var device := devices[|devices| - 1];
      if before.refused.Some? then before
      else match Refusal(config, before.alloc, device, id)
        case Some(error) => Outcome(before.alloc, Some(Refused(device, error)))
        case None => Outcome(Allocated(before.alloc, device, id), None)
  }

  /** Allocates the devices of one instance; a refusal rolls back. */
  function AllocateAll(config: NodeConfig, alloc: Allocation, devices: seq<string>, id: InstanceID): Outcome {
    var run := RunAllocations(config, alloc, devices, id);
    if run.refused.Some? then Outcome(Released(run.alloc, id), run.refused) else run
  }

  class ResourceManager {
    var allocatedDevices: Allocation
    var nodeConfig: NodeConfig

    constructor (config: NodeConfig)
      ensures allocatedDevices == map[] && nodeConfig == config
    {
      allocatedDevices := map[];
      nodeConfig := config;
    }

    static method Contains(arr: seq<string>, str: string) returns (found: bool)
      ensures found <==> str in arr
    {
      for i := 0 to |arr|
        invariant str !in arr[..i]
      {
        if arr[i] == str {
          return true;
        }
      }
      assert arr[..|arr|] == arr;
      return false;
    }

    static method RemoveFromSlice(arr: seq<string>, str: string) returns (rest: seq<string>)
      ensures rest == RemoveFirst(arr, str)
    {
      for i := 0 to |arr|
        invariant str !in arr[..i]
      {
        if arr[i] == str {
          RemoveFirstIndex(arr, i);
          return arr[..i] + arr[i + 1..];
        }
      }
      assert arr[..|arr|] == arr;
      RemoveFirstAbsent(arr, str);
      return arr;
    }

    method GetAvailableDevice(name: string) returns (info: Option<DeviceInfo>)
      ensures info == FindDevice(nodeConfig.devices, name)
      ensures info == None ==> forall d :: d in nodeConfig.devices ==> d.name != name
      ensures forall k :: IsFirst(nodeConfig.devices, k, name) ==> info == Some(nodeConfig.devices[k])
    {
      var devices := nodeConfig.devices;
      FirstIsFound(devices, name);
      for i := 0 to |devices|
        invariant FindDevice(devices, name) == FindDevice(devices[i..], name)
      {
        if devices[i].name == name {
          return Some(devices[i]);
        }
        assert devices[i..][1..] == devices[i + 1..];
      }
      return None;
    }

    method AllocateDevice(device: string, id: InstanceID) returns (error: Option<AllocError>)
      modifies this`allocatedDevices
      ensures error == Refusal(nodeConfig, old(allocatedDevices), device, id)
      ensures RefusedFor(nodeConfig, Holders(old(allocatedDevices), device), device, id, error)
      ensures allocatedDevices ==
              if error.None? then Allocated(old(allocatedDevices), device, id) else old(allocatedDevices)
    {
      RefusalIsExact(nodeConfig, allocatedDevices, device, id);
      hide RefusedFor;
      if nodeConfig.broken {
        return Some(ConfigBroken);
      }
      var info := GetAvailableDevice(device);
      if info.None? {
        return Some(NotAvailable);
      }
      var instances := Holders(allocatedDevices, device);
      var held := Contains(instances, id);
      if held {
        return None;
      }
      if info.value.sharedCount != 0 && |instances| >= info.value.sharedCount {
        return Some(NoShare);
      }
      allocatedDevices := allocatedDevices[device := instances + [id]];
      return None;
    }

    /** Reports whether the instance held the device. */
    method ReleaseDevice(device: string, id: InstanceID) returns (ok: bool)
      modifies this`allocatedDevices
      ensures ok <==> id in Holders(old(allocatedDevices), device)
      ensures !ok ==> allocatedDevices == old(allocatedDevices)
      ensures ok && !Stays(old(allocatedDevices)[device], id) ==> allocatedDevices == old(allocatedDevices) - {device}
      ensures ok && Stays(old(allocatedDevices)[device], id) ==>
                allocatedDevices == old(allocatedDevices)[device := RemoveFirst(old(allocatedDevices)[device], id)]
    {
      if device !in allocatedDevices {
        return false;
      }
      var held := Contains(allocatedDevices[device], id);
      if !held {
        return false;
      }
      var rest := RemoveFromSlice(allocatedDevices[device], id);
      allocatedDevices := allocatedDevices[device := rest];
      if |allocatedDevices[device]| == 0 {
        allocatedDevices := allocatedDevices - {device};
      }
      return true;
    }

    /** Releases everything `id` holds; the devices are visited in any order. */
    method ReleaseDevices(id: InstanceID)
      modifies this`allocatedDevices
      ensures allocatedDevices == Released(old(allocatedDevices), id)
    {
      ghost var before := allocatedDevices;
      var remaining := allocatedDevices.Keys;
      while remaining != {}
        invariant remaining <= before.Keys
        invariant allocatedDevices == PartlyReleased(before, remaining, id)
        decreases remaining
      {
        var device :| device in remaining;
        PartlyReleasedStep(before, remaining, device, id);
        var held := Contains(allocatedDevices[device], id);
        if held {
          var rest := RemoveFromSlice(allocatedDevices[device], id);
          allocatedDevices := allocatedDevices[device := rest];
          if |allocatedDevices[device]| == 0 {
            allocatedDevices := allocatedDevices - {device};
          }
        }
        remaining := remaining - {device};
      }
    }

    method ResetDevicesAllocation()
      modifies this`allocatedDevices
      ensures allocatedDevices == map[]
    {
      allocatedDevices := map[];
    }

    /** The launcher's allocation of all devices of one instance, with its roll-back. */
    method AllocateDevices(devices: seq<string>, id: InstanceID) returns (refused: Option<Refused>)
      modifies this`allocatedDevices
      ensures Outcome(allocatedDevices, refused) == AllocateAll(nodeConfig, old(allocatedDevices), devices, id)
    {
      for i := 0 to |devices|
        invariant Outcome(allocatedDevices, None) ==
                  RunAllocations(nodeConfig, old(allocatedDevices), devices[..i], id)
      {
        assert devices[..i + 1][..i] == devices[..i];
        var error := AllocateDevice(devices[i], id);
        if error.Some? {
          RefusalIsFinal(nodeConfig, old(allocatedDevices), devices, i + 1, id);
          ReleaseDevices(id);
          return Some(Refused(devices[i], error.value));
        }
      }
      assert devices[..|devices|] == devices;
      return None;
    }
  }

  lemma {:induction false} RefusalIsFinal(
      config: NodeConfig, alloc: Allocation, devices: seq<string>, k: nat, id: InstanceID)
    requires k <= |devices| && RunAllocations(config, alloc, devices[..k], id).refused.Some?
    ensures RunAllocations(config, alloc, devices, id) == RunAllocations(config, alloc, devices[..k], id)
  {
    if k == |devices| {
      assert devices[..k] == devices;
    } else {
      assert devices[..|devices| - 1][..k] == devices[..k];
      RefusalIsFinal(config, alloc, devices[..|devices| - 1], k, id);
    }
  }

  /* ---- What an allocation amounts to ---- */

  /** No device is listed without a holder and no holder twice. */
  ghost predicate WellFormed(alloc: Allocation) {
    forall device :: device in alloc ==> alloc[device] != [] && Distinct(alloc[device])
  }

  ghost predicate HoldsNothing(alloc: Allocation, id: InstanceID) {
    forall device :: device in alloc ==> id !in alloc[device]
  }

  /** `id` joins the end of the queue of every device in `devices` it does not hold yet. */
  ghost function Grant(alloc: Allocation, devices: set<string>, id: InstanceID): Allocation {
    map device | device in alloc.Keys + devices ::
      if device in devices && id !in Holders(alloc, device) then Holders(alloc, device) + [id]
      else Holders(alloc, device)
  }

  /** Every device of the list could be given to `id` as the table stands. */
  ghost predicate Admissible(config: NodeConfig, alloc: Allocation, devices: seq<string>, id: InstanceID) {
    forall device :: device in devices ==> Refusal(config, alloc, device, id) == None
  }

  lemma GrantStep(config: NodeConfig, alloc: Allocation, granted: set<string>, device: string, id: InstanceID)
    requires device in granted ==> Refusal(config, alloc, device, id) == None
    ensures Refusal(config, Grant(alloc, granted, id), device, id) == Refusal(config, alloc, device, id)
    ensures Allocated(Grant(alloc, granted, id), device, id) == Grant(alloc, granted + {device}, id)
  {
    var now := Grant(alloc, granted, id);
    if device in granted {
      assert id in Holders(now, device);
      assert granted + {device} == granted;
    } else {
      assert Holders(now, device) == Holders(alloc, device);
    }
  }

  /** The run either grants all devices at once or stops at the first that the initial table refuses. */
  lemma {:induction false} RunIsGrant(config: NodeConfig, alloc: Allocation, devices: seq<string>, id: InstanceID)
    ensures var run := RunAllocations(config, alloc, devices, id);
            && (run.refused == None <==> Admissible(config, alloc, devices, id))
            && (run.refused == None ==> run.alloc == Grant(alloc, Elements(devices), id))
            && (run.refused != None ==>
                  && run.refused.value.device in devices
                  && Refusal(config, alloc, run.refused.value.device, id) == Some(run.refused.value.error)
                  && exists granted: set<string> :: run.alloc == Grant(alloc, granted, id))
  {
    var run := RunAllocations(config, alloc, devices, id);
    if devices == [] {
      assert run.alloc == Grant(alloc, Elements(devices), id);
    } else {
      var rest, device := devices[..|devices| - 1], devices[|devices| - 1];
      assert devices == rest + [device];
      assert Elements(devices) == Elements(rest) + {device};
      RunIsGrant(config, alloc, rest, id);
      if Admissible(config, alloc, rest, id) {
        GrantStep(config, alloc, Elements(rest), device, id);
      }
    }
  }

  lemma ReleaseUndoesGrant(alloc: Allocation, devices: set<string>, id: InstanceID)
    requires WellFormed(alloc) && HoldsNothing(alloc, id)
    ensures Released(Grant(alloc, devices, id), id) == alloc
  {
    var granted := Grant(alloc, devices, id);
    forall device | device in granted
      ensures RemoveFirst(granted[device], id) == Holders(alloc, device)
    {
      if device in devices {
        RemoveFirstLast(Holders(alloc, device), id);
      } else {
        RemoveFirstAbsent(Holders(alloc, device), id);
      }
    }
  }

  lemma {:induction false} RemoveFirstDistinct<T>(s: seq<T>, x: T)
    requires Distinct(s)
    ensures x !in RemoveFirst(s, x)
  {
    if s != [] && s[0] != x {
      assert Distinct(s[1..]);
      RemoveFirstDistinct(s[1..], x);
    }
  }

  /** After a release the instance holds nothing at all. */
  lemma ReleaseIsComplete(alloc: Allocation, id: InstanceID)
    requires WellFormed(alloc)
    ensures HoldsNothing(Released(alloc, id), id)
  {
    forall device | device in Released(alloc, id)
      ensures id !in Released(alloc, id)[device]
    {
      RemoveFirstDistinct(alloc[device], id);
    }
  }

  lemma GrantWellFormed(alloc: Allocation, devices: set<string>, id: InstanceID)
    requires WellFormed(alloc)
    ensures WellFormed(Grant(alloc, devices, id))
  {
  }

  /**
   * All or nothing: an instance gets all its devices when the table admits them, and a refusal restores the
   * table, its key set and the order of the holders included, exactly when the instance held nothing before.
   */
  lemma AllOrNothing(config: NodeConfig, alloc: Allocation, devices: seq<string>, id: InstanceID)
    requires WellFormed(alloc)
    ensures var result := AllocateAll(config, alloc, devices, id);
            && (result.refused == None <==> Admissible(config, alloc, devices, id))
            && (result.refused == None ==> result.alloc == Grant(alloc, Elements(devices), id))
            && (result.refused != None ==> (result.alloc == alloc <==> HoldsNothing(alloc, id)))
            && (result.refused != None ==>
                  && result.refused.value.device in devices
                  && Refusal(config, alloc, result.refused.value.device, id) == Some(result.refused.value.error))
  {
    RunIsGrant(config, alloc, devices, id);
    var run := RunAllocations(config, alloc, devices, id);
    if run.refused != None {
      var granted :| run.alloc == Grant(alloc, granted, id);
      GrantWellFormed(alloc, granted, id);
      ReleaseIsComplete(run.alloc, id);
      if HoldsNothing(alloc, id) {
        ReleaseUndoesGrant(alloc, granted, id);
      }
    }
  }
}
