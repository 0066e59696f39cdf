/** Which of the requested instances can run: services are looked up and devices handed out by priority. */
module Preparation {
  import opened Sequences
  import opened Instances
  import opened Devices

  datatype ServiceError =
    NotExist | ProviderError(message: string) | ConfigError | OfflineTimeout | ImageError | ValidationError

  /** Why an instance is in the failed state. */
  datatype LaunchError =
    | NoServiceInfo | ServiceUnusable(reason: ServiceError) | DeviceRefused(refused: Refused)
    | StartError(message: string) | RunnerError(message: string)

  datatype ServiceConfig = ServiceConfig(devices: seq<string>, offlineTTL: int)

  datatype ServiceEntry = ServiceEntry(
    serviceID: string, version: string, config: Option<ServiceConfig>, error: Option<ServiceError>)

  type Services = map<string, ServiceEntry>

  /** What the service provider answers about one service: the lookup, then its three checks. */
  datatype Lookup = Lookup(
    version: string, error: Option<ServiceError>, config: Option<ServiceConfig>, imageOk: bool, valid: bool)

  /** The checks run in order and the first that fails decides. */
  function Entry(serviceID: string, lookup: Lookup, onlineTime: int, now: int): (entry: ServiceEntry)
    ensures entry.error == None ==> entry.config.Some?
  {
    if lookup.error.Some? then
      ServiceEntry(
        if lookup.error.value == NotExist then serviceID else "",
        if lookup.error.value == NotExist then "" else lookup.version, None, lookup.error)
    else
      var ttl := if lookup.config.Some? then lookup.config.value.offlineTTL else 0;
      ServiceEntry(serviceID, lookup.version, lookup.config,
        if lookup.config == None then Some(ConfigError)
        else if ttl != 0 && onlineTime + ttl < now then Some(OfflineTimeout)
        else if !lookup.imageOk then Some(ImageError)
        else if !lookup.valid then Some(ValidationError)
        else None)
  }

  function Cached(instances: seq<StoredInstance>, provider: string -> Lookup, onlineTime: int, now: int): Services {
    map instance | instance in instances ::
      instance.info.ident.serviceID :=
      Entry(instance.info.ident.serviceID, provider(instance.info.ident.serviceID), onlineTime, now)
  }

  function DevicesOf(entry: ServiceEntry): seq<string> {
    if entry.config.Some? then entry.config.value.devices else []
  }

  datatype Failure = Failure(instance: StoredInstance, error: LaunchError)

  datatype Preparation = Preparation(alloc: Allocation, prepared: seq<StoredInstance>, failed: seq<Failure>)

  function Unusable(services: Services, instance: StoredInstance): Option<LaunchError> {
    if instance.info.ident.serviceID !in services then Some(NoServiceInfo)
    else match services[instance.info.ident.serviceID].error
      case None => None
      case Some(error) => Some(ServiceUnusable(error))
  }

  function Wanted(services: Services, instance: StoredInstance): seq<string> {
    if instance.info.ident.serviceID in services then DevicesOf(services[instance.info.ident.serviceID]) else []
  }

  /** The allocation table after preparing one instance, and why it failed, if it did. */
  function PrepareOne(config: NodeConfig, services: Services, alloc: Allocation, instance: StoredInstance)
    : (Allocation, Option<LaunchError>)
  {
    match Unusable(services, instance)
    case Some(error) => (alloc, Some(error))
    case None =>
      var result := AllocateAll(config, alloc, Wanted(services, instance), instance.id);
      (result.alloc, if result.refused.Some? then Some(DeviceRefused(result.refused.value)) else None)
  }

  /** Prepares an instance after the ones before it. */
  function PrepareNext(config: NodeConfig, services: Services, before: Preparation, instance: StoredInstance)
    : Preparation
  {
    var (alloc, error) := PrepareOne(config, services, before.alloc, instance);
    if error.Some? then before.(alloc := alloc, failed := before.failed + [Failure(instance, error.value)])
    else before.(alloc := alloc, prepared := before.prepared + [instance])
  }

  function PrepareAll(config: NodeConfig, services: Services, instances: seq<StoredInstance>): Preparation {
    if instances == [] then Preparation(map[], [], [])
    else PrepareNext(config, services, PrepareAll(config, services, instances[..|instances| - 1]),
                     instances[|instances| - 1])
  }

  function Ids(instances: seq<StoredInstance>): (ids: seq<InstanceID>)
    ensures |ids| == |instances| && forall k :: 0 <= k < |ids| ==> ids[k] == instances[k].id
  {
    seq(|instances|, k requires 0 <= k < |instances| => instances[k].id)
  }

  ghost predicate DistinctIds(instances: seq<StoredInstance>) {
    forall i, j :: 0 <= i < j < |instances| ==> instances[i].id != instances[j].id
  }

  predicate Demands(services: Services, instance: StoredInstance, device: string) {
    device in Wanted(services, instance)
  }

  function Wants(services: Services, device: string): StoredInstance -> bool {
    (i: StoredInstance) => Demands(services, i, device)
  }

  function Demanding(services: Services, instances: seq<StoredInstance>, device: string): seq<StoredInstance> {
    Filter(Wants(services, device), instances)
  }

  ghost predicate Descending(instances: seq<StoredInstance>) {
    forall i, j :: 0 <= i < j < |instances| ==> instances[i].info.priority >= instances[j].info.priority
  }

  /** The most holders a device may have; a negative count admits none. */
  function Shares(info: DeviceInfo): nat {
    if info.sharedCount < 0 then 0 else info.sharedCount
  }

  /* ---- Holders are exactly the prepared instances that want the device ---- */

  /** The prepared and the failed instances together are the requested ones. */
  lemma {:induction false} PreparePartition(config: NodeConfig, services: Services, instances: seq<StoredInstance>)
    ensures var prep := PrepareAll(config, services, instances);
            && |prep.prepared| + |prep.failed| == |instances|
            && (forall p :: p in prep.prepared ==> p in instances)
            && (forall f :: f in prep.failed ==> f.instance in instances)
            && (forall i :: i in instances && i !in prep.prepared ==> exists f :: f in prep.failed && f.instance == i)
    decreases |instances|
  {
    if instances != [] {
      var n := |instances| - 1;
      assert instances == instances[..n] + [instances[n]];
      PreparePartition(config, services, instances[..n]);
      var before, prep := PrepareAll(config, services, instances[..n]), PrepareAll(config, services, instances);
      forall i | i in instances && i !in prep.prepared
        ensures exists f :: f in prep.failed && f.instance == i
      {
        if i in instances[..n] {
          var f :| f in before.failed && f.instance == i;
          assert f in prep.failed;
        } else {
          assert prep.failed[|prep.failed| - 1].instance == i;
        }
      }
    }
  }

  ghost predicate DisjointIds(prep: Preparation) {
    && DistinctIds(prep.prepared)
    && (forall i, j :: 0 <= i < j < |prep.failed| ==> prep.failed[i].instance.id != prep.failed[j].instance.id)
    && (forall p, f :: p in prep.prepared && f in prep.failed ==> p.id != f.instance.id)
  }

  lemma LastIdNew(instances: seq<StoredInstance>, i: StoredInstance)
    requires instances != [] && DistinctIds(instances) && i in instances[..|instances| - 1]
    ensures i.id != instances[|instances| - 1].id
  {
    var k :| 0 <= k < |instances| - 1 && instances[k] == i;
  }

  lemma {:induction false} PrepareDisjoint(config: NodeConfig, services: Services, instances: seq<StoredInstance>)
    requires DistinctIds(instances)
    ensures DisjointIds(PrepareAll(config, services, instances))
    decreases |instances|
  {
    if instances != [] {
      var n := |instances| - 1;
      PrepareDisjoint(config, services, instances[..n]);
      PreparePartition(config, services, instances[..n]);
      forall i | i in instances[..n]
        ensures i.id != instances[n].id
      {
        LastIdNew(instances, i);
      }
      DisjointNext(config, services, PrepareAll(config, services, instances[..n]), instances[n]);
    }
  }

  lemma DisjointNext(config: NodeConfig, services: Services, before: Preparation, last: StoredInstance)
    requires DisjointIds(before)
    requires forall p :: p in before.prepared ==> p.id != last.id
    requires forall f :: f in before.failed ==> f.instance.id != last.id
    ensures DisjointIds(PrepareNext(config, services, before, last))
  {
    hide PrepareOne;
  }

  lemma DemandingNext(services: Services, rest: seq<StoredInstance>, last: StoredInstance, device: string)
    ensures Demanding(services, rest + [last], device) ==
            Demanding(services, rest, device) + (if Demands(services, last, device) then [last] else [])
  {
    assert (rest + [last])[..|rest|] == rest;
  }

  /** The table lists, for every device, the prepared instances that want it, in order of preparation. */
  ghost predicate ExactHolders(services: Services, prep: Preparation) {
    && (forall device :: Holders(prep.alloc, device) == Ids(Demanding(services, prep.prepared, device)))
    && (forall device :: device in prep.alloc ==> prep.alloc[device] != [])
  }

  /** No device has more holders than shares. */
  ghost predicate WithinShares(config: NodeConfig, alloc: Allocation) {
    forall device :: device in alloc ==>
      && !config.broken
      && FindDevice(config.devices, device).Some?
      && var info := FindDevice(config.devices, device).value;
         info.sharedCount != 0 ==> |alloc[device]| <= Shares(info)
  }

  lemma ExactHoldersWellFormed(services: Services, prep: Preparation)
    requires ExactHolders(services, prep) && DistinctIds(prep.prepared)
    ensures WellFormed(prep.alloc)
    ensures forall device, id :: id in Holders(prep.alloc, device) ==> id in Ids(prep.prepared)
  {
    forall device
      ensures Distinct(Holders(prep.alloc, device))
      ensures forall id :: id in Holders(prep.alloc, device) ==> id in Ids(prep.prepared)
    {
      DemandingIds(services, prep.prepared, device);
      assert Holders(prep.alloc, device) == Ids(Demanding(services, prep.prepared, device));
    }
    forall device | device in prep.alloc
      ensures Distinct(prep.alloc[device])
    {
      assert prep.alloc[device] == Holders(prep.alloc, device);
    }
  }

  lemma DemandingIds(services: Services, instances: seq<StoredInstance>, device: string)
    ensures var ids := Ids(Demanding(services, instances, device));
            && (forall id :: id in ids ==> exists i :: i in instances && i.id == id && Demands(services, i, device))
            && (forall id :: id in ids ==> id in Ids(instances))
            && (DistinctIds(instances) ==> Distinct(ids))
  {
    var selected := Demanding(services, instances, device);
    FilterElements(Wants(services, device), instances);
    forall id | id in Ids(selected)
      ensures exists i :: i in instances && i.id == id && Demands(services, i, device)
      ensures id in Ids(instances)
    {
      var ids := Ids(selected);
      var k :| 0 <= k < |ids| && ids[k] == id;
      assert selected[k] in instances && Demands(services, selected[k], device);
      var j :| 0 <= j < |instances| && instances[j] == selected[k];
      assert Ids(instances)[j] == id;
    }
    if DistinctIds(instances) {
      FilterDistinctIds(Wants(services, device), instances);
    }
  }

  lemma {:induction false} FilterDistinctIds(p: StoredInstance -> bool, instances: seq<StoredInstance>)
    requires DistinctIds(instances)
    ensures DistinctIds(Filter(p, instances))
  {
    if instances != [] {
      var n := |instances| - 1;
      FilterDistinctIds(p, instances[..n]);
      FilterElements(p, instances[..n]);
      forall i | i in Filter(p, instances[..n])
        ensures i.id != instances[n].id
      {
        LastIdNew(instances, i);
      }
    }
  }

  lemma {:induction false} HoldersExact(config: NodeConfig, services: Services, instances: seq<StoredInstance>)
    requires DistinctIds(instances)
    ensures var prep := PrepareAll(config, services, instances);
            && ExactHolders(services, prep)
            && WithinShares(config, prep.alloc)
            && WellFormed(prep.alloc)
    decreases |instances|, 1
  {
    var prep := PrepareAll(config, services, instances);
    if instances != [] {
      var n := |instances| - 1;
      assert instances == instances[..n] + [instances[n]];
      PrepareStep(config, services, instances[..n], instances[n]);
      var before := PrepareAll(config, services, instances[..n]);
      if Unusable(services, instances[n]) == None && prep.failed == before.failed {
        GrantExact(config, services, before, instances[n]);
      }
    }
    PrepareDisjoint(config, services, instances);
    ExactHoldersWellFormed(services, prep);
  }

  /** The configuration of its service lists the device. */
  ghost predicate Lists(services: Services, i: StoredInstance, device: string) {
    && i.info.ident.serviceID in services
    && services[i.info.ident.serviceID].config.Some?
    && device in services[i.info.ident.serviceID].config.value.devices
  }

  ghost predicate IsListed(services: Services, prepared: seq<StoredInstance>, device: string, id: InstanceID) {
    exists p :: p in prepared && p.id == id && Lists(services, p, device)
  }

  /** Who holds a device at the end: the prepared instances whose service lists it, and nobody else. */
  lemma HoldersAreListed(config: NodeConfig, services: Services, instances: seq<StoredInstance>)
    requires DistinctIds(instances)
    ensures var prep := PrepareAll(config, services, instances);
            forall device, id :: device in prep.alloc && id in prep.alloc[device] <==>
              IsListed(services, prep.prepared, device, id)
  {
    HoldersExact(config, services, instances);
    var prep := PrepareAll(config, services, instances);
    forall device, id
      ensures device in prep.alloc && id in prep.alloc[device] <==> IsListed(services, prep.prepared, device, id)
    {
      assert Holders(prep.alloc, device) == Ids(Demanding(services, prep.prepared, device));
      ListedHold(services, prep.prepared, device, id);
    }
  }

  lemma ListedHold(services: Services, prepared: seq<StoredInstance>, device: string, id: InstanceID)
    ensures id in Ids(Demanding(services, prepared, device)) <==> IsListed(services, prepared, device, id)
  {
    DemandingIds(services, prepared, device);
    var selected := Demanding(services, prepared, device);
    FilterElements(Wants(services, device), prepared);
    forall p ensures Demands(services, p, device) <==> Lists(services, p, device) {
    }
    hide Demands, Lists;
    if p :| p in prepared && p.id == id && Lists(services, p, device) {
      assert p in selected;
      var k :| 0 <= k < |selected| && selected[k] == p;
      assert Ids(selected)[k] == id;
    }
  }

  /** The newcomer holds nothing yet, so it gets all its devices or leaves the table as it was. */
  lemma PrepareStep(config: NodeConfig, services: Services, rest: seq<StoredInstance>, last: StoredInstance)
    requires DistinctIds(rest + [last])
    ensures var before, prep := PrepareAll(config, services, rest), PrepareAll(config, services, rest + [last]);
            && ExactHolders(services, before)
            && WithinShares(config, before.alloc)
            && HoldsNothing(before.alloc, last.id)
            && prep == PrepareNext(config, services, before, last)
            && (Unusable(services, last) == None ==>
                  if Admissible(config, before.alloc, Wanted(services, last), last.id) then
                    prep == Preparation(Grant(before.alloc, Elements(Wanted(services, last)), last.id),
                                        before.prepared + [last], before.failed)
                  else
                    exists refused: Refused ::
                      && prep == before.(failed := before.failed + [Failure(last, DeviceRefused(refused))])
                      && Refusal(config, before.alloc, refused.device, last.id) == Some(refused.error))
            && (prep.alloc != before.alloc ==>
                  && Admissible(config, before.alloc, Wanted(services, last), last.id)
                  && prep.alloc == Grant(before.alloc, Elements(Wanted(services, last)), last.id))
    decreases |rest| + 1, 0
  {
    var instances := rest + [last];
    assert instances[..|rest|] == rest;
    HoldersExact(config, services, rest);
    PreparePartition(config, services, rest);
    PrepareDisjoint(config, services, rest);
    var before := PrepareAll(config, services, rest);
    ExactHoldersWellFormed(services, before);
    NewcomerHoldsNothing(instances, before);
    AllOrNothing(config, before.alloc, Wanted(services, last), last.id);
  }

  lemma NewcomerHoldsNothing(instances: seq<StoredInstance>, before: Preparation)
    requires instances != [] && DistinctIds(instances)
    requires forall p :: p in before.prepared ==> p in instances[..|instances| - 1]
    requires forall device, id :: id in Holders(before.alloc, device) ==> id in Ids(before.prepared)
    ensures HoldsNothing(before.alloc, instances[|instances| - 1].id)
  {
    var n := |instances| - 1;
    var ids := Ids(before.prepared);
    forall k | 0 <= k < |ids|
      ensures ids[k] != instances[n].id
    {
      assert before.prepared[k] in before.prepared;
      LastIdNew(instances, before.prepared[k]);
    }
    forall device, id | device in before.alloc && id in before.alloc[device]
      ensures id != instances[n].id
    {
      assert id in Holders(before.alloc, device);
      assert id in ids;
    }
  }

  lemma GrantExact(config: NodeConfig, services: Services, before: Preparation, last: StoredInstance)
    requires ExactHolders(services, before) && WithinShares(config, before.alloc)
    requires HoldsNothing(before.alloc, last.id)
    requires Admissible(config, before.alloc, Wanted(services, last), last.id)
    ensures var alloc := Grant(before.alloc, Elements(Wanted(services, last)), last.id);
            && ExactHolders(services, Preparation(alloc, before.prepared + [last], before.failed))
            && WithinShares(config, alloc)
  {
    GrantWithinShares(config, services, before.alloc, last);
    var alloc := Grant(before.alloc, Elements(Wanted(services, last)), last.id);
    hide Wanted, Refusal, FindDevice, WithinShares, Admissible, Demanding;
    forall device
      ensures Holders(alloc, device) == Ids(Demanding(services, before.prepared + [last], device))
    {
      GrantExactDevice(services, before, last, device);
    }
    forall device | device in alloc
      ensures alloc[device] != []
    {
      assert Holders(before.alloc, device) != [] || device in Wanted(services, last);
    }
  }

  lemma GrantExactDevice(services: Services, before: Preparation, last: StoredInstance, device: string)
    requires ExactHolders(services, before) && HoldsNothing(before.alloc, last.id)
    ensures Holders(Grant(before.alloc, Elements(Wanted(services, last)), last.id), device) ==
            Ids(Demanding(services, before.prepared + [last], device))
  {
    assert Holders(before.alloc, device) == Ids(Demanding(services, before.prepared, device));
    hide Wanted, ExactHolders, Demanding;
    DemandingNext(services, before.prepared, last, device);
    GrantedHolders(before.alloc, Elements(Wanted(services, last)), device, last.id);
  }

  lemma GrantWithinShares(config: NodeConfig, services: Services, alloc: Allocation, last: StoredInstance)
    requires WithinShares(config, alloc) && HoldsNothing(alloc, last.id)
    requires Admissible(config, alloc, Wanted(services, last), last.id)
    ensures WithinShares(config, Grant(alloc, Elements(Wanted(services, last)), last.id))
  {
    hide Wanted, FindDevice;
    var devices := Elements(Wanted(services, last));
    var after := Grant(alloc, devices, last.id);
    forall device | device in after
      ensures !config.broken && FindDevice(config.devices, device).Some?
      ensures var info := FindDevice(config.devices, device).value;
              info.sharedCount != 0 ==> |after[device]| <= Shares(info)
    {
      GrantedHolders(alloc, devices, device, last.id);
      assert after[device] == Holders(after, device);
      if device in devices {
        assert Refusal(config, alloc, device, last.id) == None;
      } else {
        assert device in alloc;
      }
    }
  }

  lemma GrantedHolders(alloc: Allocation, devices: set<string>, device: string, id: InstanceID)
    requires HoldsNothing(alloc, id)
    ensures Holders(Grant(alloc, devices, id), device) ==
            Holders(alloc, device) + if device in devices then [id] else []
  {
  }

  /* ---- No priority inversion ---- */

  /** `failure` lost device `device` to a full house of instances of at least its own priority. */
  ghost predicate FullHouse(config: NodeConfig, services: Services, prep: Preparation, failure: Failure, device: string)
  {
    && FindDevice(config.devices, device).Some?
    && FindDevice(config.devices, device).value.sharedCount != 0
    && |Holders(prep.alloc, device)| == Shares(FindDevice(config.devices, device).value)
    && Distinct(Holders(prep.alloc, device))
    && failure.instance.id !in Holders(prep.alloc, device)
    && forall id :: id in Holders(prep.alloc, device) ==>
         exists p :: p in prep.prepared && p.id == id && Demands(services, p, device)
                     && p.info.priority >= failure.instance.info.priority
  }

  ghost predicate LostDevice(prep: Preparation, failure: Failure, device: string) {
    failure in prep.failed && failure.error == DeviceRefused(Refused(device, NoShare))
  }

  /**
   * For any order of equal priorities: an instance refused for lack of a share of a device leaves that device
   * with exactly as many holders as it has shares, all prepared and none of lower priority.
   */
  lemma {:induction false} NoPriorityInversion(
      config: NodeConfig, services: Services, instances: seq<StoredInstance>, failure: Failure, device: string)
    requires DistinctIds(instances) && Descending(instances)
    requires LostDevice(PrepareAll(config, services, instances), failure, device)
    ensures FullHouse(config, services, PrepareAll(config, services, instances), failure, device)
    decreases |instances|
  {
    var n := |instances| - 1;
    var rest, last := instances[..n], instances[n];
    assert instances == rest + [last];
    if failure in PrepareAll(config, services, rest).failed {
      NoPriorityInversion(config, services, rest, failure, device);
      SettledDevice(config, services, rest, last, device);
    } else {
      RefusedLast(config, services, rest, last, failure, device);
    }
  }

  lemma RefusedLast(
      config: NodeConfig, services: Services, rest: seq<StoredInstance>, last: StoredInstance,
      failure: Failure, device: string)
    requires DistinctIds(rest + [last]) && Descending(rest + [last])
    requires failure !in PrepareAll(config, services, rest).failed
    requires LostDevice(PrepareAll(config, services, rest + [last]), failure, device)
    ensures FullHouse(config, services, PrepareAll(config, services, rest + [last]), failure, device)
  {
    var before := PrepareAll(config, services, rest);
    PrepareStep(config, services, rest, last);
    assert Refusal(config, before.alloc, device, last.id) == Some(NoShare);
    PrepareDisjoint(config, services, rest);
    DemandingIds(services, before.prepared, device);
    assert Holders(before.alloc, device) == Ids(Demanding(services, before.prepared, device));
    PriorityFloor(config, services, rest, last);
  }

  lemma PriorityFloor(config: NodeConfig, services: Services, rest: seq<StoredInstance>, last: StoredInstance)
    requires Descending(rest + [last])
    ensures forall p :: p in PrepareAll(config, services, rest).prepared ==> p.info.priority >= last.info.priority
  {
    PreparePartition(config, services, rest);
    forall p | p in PrepareAll(config, services, rest).prepared
      ensures p.info.priority >= last.info.priority
    {
      var k :| 0 <= k < |rest| && rest[k] == p;
      assert (rest + [last])[k].info.priority >= (rest + [last])[|rest|].info.priority;
    }
  }

  /** A device that has given out all its shares keeps its holders. */
  lemma SettledDevice(
      config: NodeConfig, services: Services, rest: seq<StoredInstance>, last: StoredInstance, device: string)
    requires DistinctIds(rest + [last])
    requires var info := FindDevice(config.devices, device);
             && info.Some? && info.value.sharedCount != 0
             && |Holders(PrepareAll(config, services, rest).alloc, device)| == Shares(info.value)
    ensures Holders(PrepareAll(config, services, rest + [last]).alloc, device) ==
            Holders(PrepareAll(config, services, rest).alloc, device)
  {
    hide ExactHolders, WithinShares, PrepareNext, FindDevice, Grant;
    var before, prep := PrepareAll(config, services, rest), PrepareAll(config, services, rest + [last]);
    PrepareStep(config, services, rest, last);
    if device in Wanted(services, last) {
      assert last.id !in Holders(before.alloc, device);
      assert Refusal(config, before.alloc, device, last.id) != None;
      assert prep.alloc == before.alloc;
    } else if prep.alloc != before.alloc {
      GrantElsewhere(before.alloc, Elements(Wanted(services, last)), device, last.id);
    }
  }

  lemma GrantElsewhere(alloc: Allocation, devices: set<string>, device: string, id: InstanceID)
    requires device !in devices
    ensures Holders(Grant(alloc, devices, id), device) == Holders(alloc, device)
  {
  }

  /* ---- If all demands fit in one order they fit in every order ---- */

  ghost predicate DeviceFits(config: NodeConfig, device: string, demand: nat) {
    && !config.broken
    && FindDevice(config.devices, device).Some?
    && (FindDevice(config.devices, device).value.sharedCount == 0
        || demand <= FindDevice(config.devices, device).value.sharedCount)
  }

  /** Every service is usable and no wanted device is oversubscribed: a condition without an order. */
  ghost predicate Fits(config: NodeConfig, services: Services, instances: seq<StoredInstance>) {
    && (forall i :: i in instances ==> Unusable(services, i) == None)
    && (forall i, device :: i in instances && Demands(services, i, device) ==>
          DeviceFits(config, device, |Demanding(services, instances, device)|))
  }

  lemma {:induction false} AllPreparedIffFits(
      config: NodeConfig, services: Services, instances: seq<StoredInstance>)
    requires DistinctIds(instances)
    ensures PrepareAll(config, services, instances).failed == [] <==> Fits(config, services, instances)
    ensures Fits(config, services, instances) ==> PrepareAll(config, services, instances).prepared == instances
    decreases |instances|
  {
    if instances != [] {
      var n := |instances| - 1;
      var rest, last := instances[..n], instances[n];
      assert instances == rest + [last];
      AllPreparedIffFits(config, services, rest);
      FitsPrefix(config, services, rest, last);
      if Fits(config, services, rest) {
        LastFits(config, services, rest, last);
      }
    }
  }

  lemma FitsPrefix(config: NodeConfig, services: Services, rest: seq<StoredInstance>, last: StoredInstance)
    ensures Fits(config, services, rest + [last]) ==> Fits(config, services, rest)
  {
    if Fits(config, services, rest + [last]) {
      forall i, device | i in rest && Demands(services, i, device)
        ensures DeviceFits(config, device, |Demanding(services, rest, device)|)
      {
        DemandingNext(services, rest, last, device);
        assert i in rest + [last];
      }
    }
  }

  lemma LastFits(config: NodeConfig, services: Services, rest: seq<StoredInstance>, last: StoredInstance)
    requires DistinctIds(rest + [last]) && Fits(config, services, rest)
    requires PrepareAll(config, services, rest).failed == [] && PrepareAll(config, services, rest).prepared == rest
    ensures Fits(config, services, rest + [last]) ==>
              PrepareAll(config, services, rest + [last]).prepared == rest + [last]
    ensures PrepareAll(config, services, rest + [last]).failed == [] <==> Fits(config, services, rest + [last])
  {
    var instances := rest + [last];
    var before := PrepareAll(config, services, rest);
    PrepareStep(config, services, rest, last);
    forall device | Demands(services, last, device)
      ensures Refusal(config, before.alloc, device, last.id) == None <==>
              DeviceFits(config, device, |Demanding(services, instances, device)|)
    {
      DemandingNext(services, rest, last, device);
      assert Holders(before.alloc, device) == Ids(Demanding(services, rest, device));
      assert last.id !in Holders(before.alloc, device);
    }
    FitsLast(config, services, rest, last);
  }

  lemma FitsLast(config: NodeConfig, services: Services, rest: seq<StoredInstance>, last: StoredInstance)
    requires Fits(config, services, rest)
    ensures Fits(config, services, rest + [last]) <==>
              && Unusable(services, last) == None
              && forall device :: Demands(services, last, device) ==>
                   DeviceFits(config, device, |Demanding(services, rest + [last], device)|)
  {
    var instances := rest + [last];
    assert last in instances;
    if
      && Unusable(services, last) == None
      && forall device :: Demands(services, last, device) ==>
           DeviceFits(config, device, |Demanding(services, instances, device)|)
    {
      forall i, device | i in instances && Demands(services, i, device)
        ensures DeviceFits(config, device, |Demanding(services, instances, device)|)
      {
        DemandingNext(services, rest, last, device);
        if !Demands(services, last, device) {
          assert i in rest;
        }
      }
    }
  }

  lemma FitsPermuted(
      config: NodeConfig, services: Services, one: seq<StoredInstance>, other: seq<StoredInstance>)
    requires multiset(one) == multiset(other) && Fits(config, services, one)
    ensures Fits(config, services, other)
  {
    forall i | i in other
      ensures i in one
    {
      assert i in multiset(other);
    }
    forall i, device | i in other && Demands(services, i, device)
      ensures DeviceFits(config, device, |Demanding(services, other, device)|)
    {
      FilterPermutation(Wants(services, device), one, other);
    }
  }

  /** Preparation succeeds for all instances in one order exactly when it does in any other order. */
  lemma FitsInEveryOrder(
      config: NodeConfig, services: Services, one: seq<StoredInstance>, other: seq<StoredInstance>)
    requires multiset(one) == multiset(other) && DistinctIds(one) && DistinctIds(other)
    ensures PrepareAll(config, services, one).failed == [] <==> PrepareAll(config, services, other).failed == []
  {
    AllPreparedIffFits(config, services, one);
    AllPreparedIffFits(config, services, other);
    if Fits(config, services, one) {
      FitsPermuted(config, services, one, other);
    }
    if Fits(config, services, other) {
      FitsPermuted(config, services, other, one);
    }
  }
}
