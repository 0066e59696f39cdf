/**
 * The launcher object: its critical sections as methods on the heap, each proved against the function of
 * module Reconciler that the state machine of module LauncherRuns is made of.
 */
module Launcher {
  import opened Sequences
  import opened Instances
  import opened Devices
  import opened Preparation
  import opened StorageMatching
  import opened Reconciler
  import opened LauncherInvariant
  import opened EnvVars
  import opened EnvRestarts
  import opened ServiceChecks

  class RuntimeInstance {
    var instance: StoredInstance
    var service: Option<ServiceEntry>
    var runStatus: RunStatus
    var overrideEnvVars: seq<string>

    ghost function Value(): Runtime
      reads this
    {
      Runtime(instance, service, runStatus, overrideEnvVars)
    }

    constructor (instance: StoredInstance)
      ensures Value() == NewRuntime(instance, None)
    {
      this.instance := instance;
      service := None;
      runStatus := NO_STATUS;
      overrideEnvVars := [];
    }

    constructor FromRecord(rt: Runtime)
      ensures Value() == rt
    {
      instance, service, runStatus, overrideEnvVars := rt.instance, rt.service, rt.status, rt.overrides;
    }

    method GetCloudStatus() returns (status: CloudStatus)
      ensures status == Cloud(Value())
      ensures status.ident == instance.info.ident && status.state == runStatus.state
      ensures status.version == if service.Some? then service.value.version else ""
      ensures status.error ==
              if runStatus.state == Failed then Some(ErrorInfo(runStatus.exitCode, runStatus.error)) else None
    {
      status := CloudStatus(instance.info.ident, "", runStatus.state, None);
      if service.Some? {
        status := status.(version := service.value.version);
      }
      if status.state == Failed {
        status := status.(error := Some(ErrorInfo(runStatus.exitCode, runStatus.error)));
      }
    }

    method SetRunStatus(status: RunStatus)
      modifies this`runStatus
      ensures runStatus == status
    {
      runStatus := status;
    }

    method InstanceFailed(error: LaunchError)
      modifies this`runStatus
      ensures Value() == Fail(old(Value()), error)
      ensures runStatus == RunStatus(Failed, Some(error), old(runStatus.exitCode))
    {
      runStatus := runStatus.(state := Failed, error := Some(error));
    }
  }

  lemma NoReports(current: Runtimes)
    ensures ApplyReports(current, []) == current && Updates(current, []) == []
  {
  }

  lemma NextReport(current: Runtimes, reports: seq<Report>, i: nat)
    requires i < |reports|
    ensures reports[..0] == []
    ensures var before := ApplyReports(current, reports[..i]);
            && ApplyReports(current, reports[..i + 1]) == ApplyReport(before, reports[i])
            && Updates(current, reports[..i + 1]) == Updates(current, reports[..i]) +
               if Changes(before, reports[i]) then [Cloud(before[reports[i].id].(status := reports[i].status))] else []
  {
    assert reports[..i + 1][..i] == reports[..i];
  }

  /**
   * How a start ends: a status that was set meanwhile wins over the runner's answer, a failed setup overwrites both
   * and keeps the exit code; the override list is taken over if the spec was rebuilt.
   */
  ghost predicate EndedAs(before: Runtime, after: Runtime, result: StartOutcome, overrides: seq<string>) {
    && after.instance == before.instance && after.service == before.service
    && (result.RunnerAnswered? ==>
          && after.status == (if before.status.state == Unset then result.status else before.status)
          && after.overrides == overrides)
    && (result.SetupFailed? ==>
          && after.status == RunStatus(Failed, Some(result.error), before.status.exitCode)
          && after.overrides == if result.built then overrides else before.overrides)
  }

  type Objects = map<InstanceID, RuntimeInstance>

  ghost function Values(objects: Objects): Runtimes
    reads set id | id in objects :: objects[id]
  {
    map id | id in objects :: objects[id].Value()
  }

  lemma SameValues(objects: Objects)
    ensures Values(objects).Keys == objects.Keys
    ensures forall id :: id in objects ==> Values(objects)[id] == objects[id].Value()
  {
  }

  /** Every object is registered under its own ID; hence under one ID only. */
  ghost predicate Registered(objects: Objects)
    reads set id | id in objects :: objects[id]
  {
    forall id :: id in objects ==> objects[id].instance.id == id
  }

  ghost function Range(objects: Objects): set<RuntimeInstance> {
    set id | id in objects :: objects[id]
  }

  /** The records of the instances to start, in the order of preparation. */
  function NewRuntimes(services: Services, prepared: seq<StoredInstance>): (starts: seq<Runtime>)
    ensures |starts| == |prepared|
  {
    seq(|prepared|, k requires 0 <= k < |prepared| => NewRuntime(prepared[k], ServiceOf(services, prepared[k])))
  }

  lemma EmptyFailed(services: Services)
    ensures FailedRuntimes(services, []) == map[]
  {
  }

  function Records(starts: seq<Runtime>): seq<StoredInstance> {
    seq(|starts|, k requires 0 <= k < |starts| => starts[k].instance)
  }

  lemma RecordsOfNew(services: Services, prepared: seq<StoredInstance>)
    ensures Records(NewRuntimes(services, prepared)) == prepared
  {
  }

  /** Every prepared instance has its service in the cache. */
  lemma PreparedLooksUp(
      config: NodeConfig, services: Services, instances: seq<StoredInstance>, sorted: seq<StoredInstance>)
    requires DistinctIds(instances) && multiset(sorted) == multiset(instances)
    ensures var prep := PrepareAll(config, services, sorted);
            && DistinctIds(prep.prepared)
            && forall p :: p in prep.prepared ==> ServiceOf(services, p).Some?
  {
    PermutedIds(instances, sorted);
    PrepareDisjoint(config, services, sorted);
    PreparedUsable(config, services, sorted);
  }

  lemma FailedNext(services: Services, failed: seq<Failure>, next: StoredInstance, error: LaunchError)
    ensures FailedRuntimes(services, failed + [Failure(next, error)]) ==
            FailedRuntimes(services, failed)[next.id := Fail(NewRuntime(next, ServiceOf(services, next)), error)]
  {
    assert (failed + [Failure(next, error)])[..|failed|] == failed;
  }

  /** Stopping and starting an instance leaves it in its place. */
  lemma RestartedCore(core: Core, id: InstanceID, result: StartOutcome, overrides: seq<string>)
    requires id in core.current && core.current[id].instance.id == id
    ensures var rt := core.current[id];
            StartEnd(Inserted(Stopped(core, id), rt), id, result, overrides) ==
            core.(current := core.current[id := Restarted(rt, result, overrides)])
  {
    var rt := core.current[id];
    assert (core.current - {id})[id := rt.(status := NO_STATUS)] == core.current[id := rt.(status := NO_STATUS)];
  }

  lemma PutBack<V>(m: map<InstanceID, V>, id: InstanceID)
    requires id in m
    ensures (m - {id})[id := m[id]] == m
  {
  }

  /** At most one message was added, and not an empty one. */
  ghost predicate AtMostOneMore(before: seq<Message>, after: seq<Message>) {
    || after == before
    || exists changed: seq<CloudStatus> :: changed != [] && after == before + [UpdateStatuses(changed)]
  }

  /** `instances` are the registered objects of the IDs in `order`. */
  ghost predicate ObjectsOf(instances: seq<RuntimeInstance>, order: seq<InstanceID>, objects: Objects)
  {
    && |instances| == |order|
    && forall k :: 0 <= k < |order| ==> order[k] in objects && objects[order[k]] == instances[k]
  }

  lemma StoppedIds(instances: seq<RuntimeInstance>, order: seq<InstanceID>, objects: Objects)
    requires Registered(objects) && ObjectsOf(instances, order, objects)
    ensures (set o | o in instances :: o.instance.id) == Elements(order)
    ensures forall o :: o in instances ==> o in Range(objects)
  {
    forall k | 0 <= k < |order|
      ensures instances[k].instance.id == order[k] && instances[k] in instances
    {
    }
  }

  ghost function FailedClouds(order: seq<InstanceID>, current: Runtimes): seq<CloudStatus>
    requires forall id :: id in order ==> id in current
  {
    seq(|order|, k requires 0 <= k < |order| => Cloud(Fail(current[order[k]], ServiceUnusable(OfflineTimeout))))
  }

  lemma OfflineEnds(current: Runtimes, order: seq<InstanceID>)
    requires forall id :: id in order ==> id in current
    ensures order[0..] == order[..|order|] == order && order[|order|..] == order[..0] == []
    ensures Elements<InstanceID>([]) == {} && FailAll(current, {}) == current && FailedClouds([], current) == []
    ensures FailedClouds(order, current) == Clouds(order, FailAll(current, Elements(order)))
  {
  }

  lemma FailNext(current: Runtimes, order: seq<InstanceID>, i: nat)
    requires i < |order| && Distinct(order) && forall id :: id in order ==> id in current
    ensures Elements(order[i..]) - {order[i]} == Elements(order[i + 1..])
    ensures FailAll(current, Elements(order[..i]))[order[i]] == current[order[i]]
    ensures FailAll(current, Elements(order[..i + 1])) ==
            FailAll(current, Elements(order[..i]))[order[i] := Fail(current[order[i]], ServiceUnusable(OfflineTimeout))]
    ensures FailedClouds(order[..i + 1], current) ==
            FailedClouds(order[..i], current) + [Cloud(Fail(current[order[i]], ServiceUnusable(OfflineTimeout)))]
  {
    assert order[i..] == [order[i]] + order[i + 1..];
    assert order[..i + 1] == order[..i] + [order[i]];
    assert order[i] !in order[..i] && order[i] !in order[i + 1..];
  }

  /* ---- The state of the comparison when the instances in `visited` have been compared ---- */

  function Undecided(services: Services, current: Runtimes, visited: set<InstanceID>): StoredInstance -> bool {
    (start: StoredInstance) => !(start.id in visited && KeptId(services, current, start))
  }

  ghost function PartlyReprioritized(
      current: Runtimes, prepared: seq<StoredInstance>, visited: set<InstanceID>): Runtimes
  {
    map id | id in current :: if id in visited then Reprioritized(current, prepared)[id] else current[id]
  }

  lemma NothingVisited(services: Services, current: Runtimes, prepared: seq<StoredInstance>)
    ensures Filter(Undecided(services, current, {}), prepared) == prepared
    ensures PartlyReprioritized(current, prepared, {}) == current
  {
    FilterAll(Undecided(services, current, {}), prepared);
  }

  lemma AllVisited(services: Services, current: Runtimes, prepared: seq<StoredInstance>)
    ensures Filter(Undecided(services, current, current.Keys), prepared) == Starts(services, current, prepared)
    ensures PartlyReprioritized(current, prepared, current.Keys) == Reprioritized(current, prepared)
  {
    FilterAgree(Undecided(services, current, current.Keys), NotKept(services, current), prepared);
  }

  lemma VisitNext(
      services: Services, current: Runtimes, prepared: seq<StoredInstance>, visited: set<InstanceID>, id: InstanceID)
    requires DistinctIds(prepared) && id in current && id !in visited
    ensures var starts := Filter(Undecided(services, current, visited), prepared);
            var next := Filter(Undecided(services, current, visited + {id}), prepared);
            && DistinctIds(starts)
            && (forall i :: i in starts ==> i in prepared)
            && FindId(starts, id) == FindId(prepared, id)
            && (id in Stops(services, current, prepared) ==> next == starts)
            && (id !in Stops(services, current, prepared) ==>
                  forall k :: 0 <= k < |starts| && starts[k] == FindId(prepared, id).value ==>
                    next == RemoveAt(starts, k))
  {
    hide Kept, Filter;
    var before, after := Undecided(services, current, visited), Undecided(services, current, visited + {id});
    var starts := Filter(before, prepared);
    FilterElements(before, prepared);
    FilterDistinctIds(before, prepared);
    forall p | p in prepared
      ensures FindId(prepared, p.id) == Some(p)
    {
      FindIdDistinct(prepared, p);
    }
    if FindId(prepared, id).Some? {
      FindIdDistinct(starts, FindId(prepared, id).value);
    }
    if id in Stops(services, current, prepared) {
      FilterAgree(before, after, prepared);
    } else {
      forall k | 0 <= k < |starts| && starts[k] == FindId(prepared, id).value
        ensures Filter(after, prepared) == RemoveAt(starts, k)
      {
        FilterDrop(before, after, prepared, k);
      }
    }
  }

  lemma StorageAnswers(list: seq<StoredInstance>, rows: Rows, desired: seq<InstanceInfo>, uuids: seq<InstanceID>)
    requires |desired| <= |uuids| && Fresh(uuids, rows) && IsListing(list, rows)
    ensures var m := MatchDesired(list, rows, desired, uuids);
            && IsListing(m.running, RowsAfter(m))
            && Answers(m.running, desired)
            && |RowsAfter(m)| == |desired|
  {
    StorageMatched(list, rows, desired, uuids);
    var m := MatchDesired(list, rows, desired, uuids);
    ListingSize(m.running, RowsAfter(m));
  }

  /** Every stored instance either runs, and its provider's answer passed all checks, or failed for a stated reason. */
  ghost predicate AllRan(
      rows: Rows, running: set<InstanceID>, errors: Runtimes, provider: string -> Lookup, onlineTime: int, now: int)
  {
    forall id :: id in rows ==>
      Ran(StoredInstance(rows[id], id), running, errors, provider(rows[id].ident.serviceID), onlineTime, now)
  }

  lemma AllHaveRun(
      instances: seq<StoredInstance>, rows: Rows, prepared: seq<StoredInstance>, running: set<InstanceID>,
      errors: Runtimes, provider: string -> Lookup, onlineTime: int, now: int)
    requires IsListing(instances, rows) && running !! errors.Keys && running + errors.Keys == rows.Keys
    requires forall i :: i in instances ==>
               Resolved(i, prepared, errors, provider(i.info.ident.serviceID), onlineTime, now)
    ensures AllRan(rows, running, errors, provider, onlineTime, now)
  {
    hide Passes, RefusedAs;
    forall id | id in rows
      ensures Ran(StoredInstance(rows[id], id), running, errors, provider(rows[id].ident.serviceID), onlineTime, now)
    {
      assert StoredInstance(rows[id], id) in instances;
    }
  }

  lemma SameElements(a: seq<StoredInstance>, b: seq<StoredInstance>)
    requires multiset(a) == multiset(b)
    ensures forall i :: i in a <==> i in b
  {
    forall i ensures i in a <==> i in b {
      assert (i in a <==> i in multiset(a)) && (i in b <==> i in multiset(b));
    }
  }

  /** An instance to start was prepared, and its provider's answer passes all checks. */
  lemma StartsPass(
      config: NodeConfig, services: Services, current: Runtimes, instances: seq<StoredInstance>,
      sorted: seq<StoredInstance>, starts: seq<Runtime>, provider: string -> Lookup, onlineTime: int, now: int)
    requires multiset(sorted) == multiset(instances) && AllRecorded(services, instances, provider, onlineTime, now)
    requires starts == NewRuntimes(services, Starts(services, current, PrepareAll(config, services, sorted).prepared))
    ensures forall start :: start in starts ==>
              && start.instance in instances
              && Passes(provider(start.instance.info.ident.serviceID), onlineTime, now)
  {
    SameElements(sorted, instances);
    AllAreExplained(config, services, instances, sorted, provider, onlineTime, now);
    PreparePartition(config, services, sorted);
    var prepared := PrepareAll(config, services, sorted).prepared;
    FilterElements(NotKept(services, current), prepared);
    hide PrepareAll, AllRecorded, Passes, NotKept, Filter, NewRuntime, ServiceOf;
    forall k | 0 <= k < |starts| ensures starts[k].instance in prepared {
      assert starts[k].instance == Starts(services, current, prepared)[k];
    }
  }

  /** The instances to stop, and how kept, started and failed instances make up the rows. */
  lemma RunPartition(
      core: Core, rows: Rows, config: NodeConfig, services: Services, instances: seq<StoredInstance>,
      sorted: seq<StoredInstance>, starts: seq<Runtime>) returns (stops: set<InstanceID>)
    requires IsListing(instances, rows) && multiset(sorted) == multiset(instances) && Keyed(core.current)
    requires starts ==
             NewRuntimes(services, Starts(services, core.current, PrepareAll(config, services, sorted).prepared))
    ensures stops == Stops(services, core.current, PrepareAll(config, services, sorted).prepared)
    ensures var after := Calculated(core, config, services, sorted);
            && Partition3(after.current.Keys - stops, Elements(Ids(Records(starts))), after.errors.Keys, rows.Keys)
            && forall id :: id in after.current && id !in stops ==> after.current[id].status.state == Active
  {
    stops := Stops(services, core.current, PrepareAll(config, services, sorted).prepared);
    ListingPermutation(instances, sorted, rows);
    CalculatedPartition(core, rows, config, services, sorted);
    CalculatedFine(core, rows, config, services, sorted);
    RecordsOfNew(services, Starts(services, core.current, PrepareAll(config, services, sorted).prepared));
  }

  class Launcher {
    var currentInstances: Objects
    /** Failed instances are never updated once they are in this map, so it holds values. */
    var errorInstances: Runtimes
    var currentServices: Services
    var runInstancesInProgress: bool
    var onlineTime: int
    var isCloudOnline: bool
    /** The messages put on the runtime status channel. */
    var sent: seq<Message>
    const resourceManager: ResourceManager
    const storage: Storage
    const envVars: EnvOverrides

    ghost predicate Valid()
      reads this`currentInstances, Range(currentInstances)
    {
      Registered(currentInstances)
    }

    /** Every running instance has a service. */
    ghost predicate Serviced()
      reads this`currentInstances, Range(currentInstances)
    {
      forall id :: id in currentInstances ==> currentInstances[id].service.Some?
    }

    ghost function Abs(): Core
      reads this, Range(currentInstances)
    {
      Core(Values(currentInstances), errorInstances, runInstancesInProgress, sent)
    }

    constructor (resourceManager: ResourceManager, storage: Storage, envVars: EnvOverrides, onlineTime: int)
      ensures Valid() && Abs() == Core(map[], map[], false, [])
      ensures this.resourceManager == resourceManager && this.storage == storage && this.envVars == envVars
    {
      this.resourceManager := resourceManager;
      this.storage := storage;
      this.envVars := envVars;
      this.onlineTime, isCloudOnline := onlineTime, false;
      currentInstances, errorInstances := map[], map[];
      currentServices := map[];
      runInstancesInProgress := false;
      sent := [];
    }

    /** One entry of a status batch; the result is the status to send, if the state changed. */
    method UpdateInstanceStatus(report: Report) returns (changed: Option<CloudStatus>)
      requires Valid()
      modifies Range(currentInstances)
      ensures Valid()
      ensures Values(currentInstances) == ApplyReport(old(Values(currentInstances)), report)
      ensures changed == if Changes(old(Values(currentInstances)), report)
                         then Some(Cloud(old(Values(currentInstances))[report.id].(status := report.status))) else None
      ensures forall id :: id in currentInstances ==>
                currentInstances[id].runStatus ==
                if id == report.id && old(currentInstances[id].runStatus.state) != report.status.state
                then report.status else old(currentInstances[id].runStatus)
      ensures changed.Some? <==>
                report.id in currentInstances && old(currentInstances[report.id].runStatus.state) != report.status.state
    {
      changed := None;
      if report.id in currentInstances {
        var currentInstance := currentInstances[report.id];
        if currentInstance.runStatus.state != report.status.state {
          currentInstance.SetRunStatus(report.status);
          var status := currentInstance.GetCloudStatus();
          changed := Some(status);
        }
      }
    }

    method UpdateInstancesStatuses(reports: seq<Report>)
      requires Valid()
      modifies this`sent, Range(currentInstances)
      ensures Valid()
      ensures Abs() == Reconciler.UpdateInstancesStatuses(old(Abs()), reports)
      ensures AtMostOneMore(old(sent), sent) && (runInstancesInProgress ==> sent == old(sent))
    {
      hide ApplyReport, ApplyReports, Updates, Changes, Cloud;
      var updates: seq<CloudStatus> := [];
      ghost var before := Values(currentInstances);
      NoReports(before);
      for i := 0 to |reports|
        invariant Valid() && sent == old(sent)
        invariant Values(currentInstances) == ApplyReports(before, reports[..i])
        invariant updates == if runInstancesInProgress then [] else Updates(before, reports[..i])
      {
        NextReport(before, reports, i);
        var changed := UpdateInstanceStatus(reports[i]);
        if changed.Some? && !runInstancesInProgress {
          updates := updates + [changed.value];
        }
      }
      assert reports[..|reports|] == reports;
      if |updates| > 0 {
        sent := sent + [UpdateStatuses(updates)];
      }
    }

    /** Looks up and checks every service once, in the order of the instances. */
    method CacheCurrentServices(instances: seq<StoredInstance>, provider: string -> Lookup, now: int)
      modifies this`currentServices
      ensures currentServices == Cached(instances, provider, onlineTime, now)
      ensures AllRecorded(currentServices, instances, provider, onlineTime, now)
    {
      currentServices := map[];
      for i := 0 to |instances|
        invariant currentServices == Cached(instances[..i], provider, onlineTime, now)
      {
        var serviceID := instances[i].info.ident.serviceID;
        assert instances[..i + 1] == instances[..i] + [instances[i]];
        if serviceID !in currentServices {
          var lookup := provider(serviceID);
          var entry := ServiceEntry(serviceID, lookup.version, None, lookup.error);
          if lookup.error.Some? {
            entry := if lookup.error.value == NotExist then entry.(version := "") else entry.(serviceID := "");
          }
          if entry.error == None {
            entry := entry.(config := lookup.config,
                            error := if lookup.config == None then Some(ConfigError) else None);
          }
          if entry.error == None {
            if entry.config.value.offlineTTL != 0 && onlineTime + entry.config.value.offlineTTL < now {
              entry := entry.(error := Some(OfflineTimeout));
            }
          }
          if entry.error == None && !lookup.imageOk {
            entry := entry.(error := Some(ImageError));
          }
          if entry.error == None && !lookup.valid {
            entry := entry.(error := Some(ValidationError));
          }
          currentServices := currentServices[serviceID := entry];
        }
      }
      assert instances[..|instances|] == instances;
      CachedAreRecorded(instances, provider, onlineTime, now);
    }

    /** Looks up the service and allocates the devices of one instance. */
    method PrepareInstance(instance: StoredInstance) returns (service: Option<ServiceEntry>, error: Option<LaunchError>)
      modifies resourceManager`allocatedDevices
      ensures service == ServiceOf(currentServices, instance)
      ensures (resourceManager.allocatedDevices, error) ==
              PrepareOne(resourceManager.nodeConfig, currentServices, old(resourceManager.allocatedDevices), instance)
    {
      var serviceID := instance.info.ident.serviceID;
      if serviceID !in currentServices {
        return None, Some(NoServiceInfo);
      }
      service := Some(currentServices[serviceID]);
      if service.value.error.Some? {
        return service, Some(ServiceUnusable(service.value.error.value));
      }
      var refused := resourceManager.AllocateDevices(DevicesOf(service.value), instance.id);
      return service, if refused.Some? then Some(DeviceRefused(refused.value)) else None;
    }

    /** Prepares the instances one by one; failures go to the map of error instances. */
    method PrepareInstances(sorted: seq<StoredInstance>) returns (starts: seq<Runtime>)
      requires Valid() && Serviced()
      modifies this`errorInstances, resourceManager`allocatedDevices
      ensures Valid() && Serviced() && Values(currentInstances) == old(Values(currentInstances))
      ensures var prep := PrepareAll(resourceManager.nodeConfig, currentServices, sorted);
              && starts == NewRuntimes(currentServices, prep.prepared)
              && errorInstances == FailedRuntimes(currentServices, prep.failed)
              && resourceManager.allocatedDevices == prep.alloc
    {
      hide Values, FailedRuntimes, Fail;
      EmptyFailed(currentServices);
      resourceManager.ResetDevicesAllocation();
      errorInstances := map[];
      starts := [];
      ghost var prep := Preparation(map[], [], []);
      for i := 0 to |sorted|
        invariant Valid() && Serviced()
        invariant prep == PrepareAll(resourceManager.nodeConfig, currentServices, sorted[..i])
        invariant starts == NewRuntimes(currentServices, prep.prepared)
        invariant errorInstances == FailedRuntimes(currentServices, prep.failed)
        invariant resourceManager.allocatedDevices == prep.alloc
      {
        hide PrepareOne, ServiceOf;
        assert sorted[..i + 1][..i] == sorted[..i];
        ghost var before := prep;
        prep := PrepareNext(resourceManager.nodeConfig, currentServices, prep, sorted[i]);
        var service, error := PrepareInstance(sorted[i]);
        var instance := NewRuntime(sorted[i], service);
        if error.Some? {
          FailedNext(currentServices, before.failed, sorted[i], error.value);
          errorInstances := errorInstances[instance.instance.id := Fail(instance, error.value)];
        } else {
          starts := starts + [instance];
        }
      }
      assert sorted[..|sorted|] == sorted;
    }

    /**
     * Compares one running instance with the instances to start. It takes over the priority of the one with its
     * ID; the result is the position of that one if the running instance is kept.
     */
    method FindKept(currentInstance: RuntimeInstance, starts: seq<StoredInstance>) returns (kept: Option<nat>)
      requires DistinctIds(starts)
      requires currentInstance.service.Some?
      requires forall i :: i in starts ==> ServiceOf(currentServices, i).Some?
      modifies currentInstance`instance
      ensures currentInstance.instance.id == old(currentInstance.instance.id)
      ensures match FindId(starts, currentInstance.instance.id)
              case None => kept == None && currentInstance.Value() == old(currentInstance.Value())
              case Some(start) =>
                && currentInstance.Value() == WithPriority(old(currentInstance.Value()), start.info.priority)
                && (kept.Some? <==> Kept(currentServices, old(currentInstance.Value()), start))
                && (kept.Some? ==> kept.value < |starts| && starts[kept.value] == start)
    {
      ghost var hit: Option<nat> := None;
      ghost var before := currentInstance.Value();
      for i := 0 to |starts|
        invariant currentInstance.instance.id == before.instance.id
        invariant hit.None? ==>
                    && currentInstance.Value() == before
                    && forall k :: 0 <= k < i ==> starts[k].id != before.instance.id
        invariant hit.Some? ==> hit.value < i && starts[hit.value].id == before.instance.id
                                && currentInstance.Value() == WithPriority(before, starts[hit.value].info.priority)
                                && !Kept(currentServices, before, starts[hit.value])
      {
        if currentInstance.instance.id != starts[i].id {
          continue;
        }
        hit := Some(i);
        assert starts[i] in starts;
        FindIdDistinct(starts, starts[i]);
        currentInstance.instance := currentInstance.instance.(
          info := currentInstance.instance.info.(priority := starts[i].info.priority));
        if currentInstance.service.value.version != ServiceOf(currentServices, starts[i]).value.version
           || currentInstance.runStatus.state != Active {
          continue;
        }
        var equal := InstanceInfoEqual(currentInstance.instance.info, starts[i].info);
        if !equal {
          continue;
        }
        return Some(i);
      }
      if hit.Some? {
        assert starts[hit.value] in starts;
        FindIdDistinct(starts, starts[hit.value]);
      }
      return None;
    }

    /** One round of the comparison: instance `id` against the starts that are left. */
    method CompareInstance(
        id: InstanceID, starts: seq<StoredInstance>,
        ghost before: Runtimes, ghost prepared: seq<StoredInstance>, ghost visited: set<InstanceID>)
      returns (kept: bool, left: seq<StoredInstance>)
      requires Valid() && id in currentInstances && id !in visited && DistinctIds(prepared)
      requires Values(currentInstances) == PartlyReprioritized(before, prepared, visited)
      requires before.Keys == currentInstances.Keys && currentInstances[id].service.Some?
      requires forall i :: i in prepared ==> ServiceOf(currentServices, i).Some?
      requires starts == Filter(Undecided(currentServices, before, visited), prepared)
      modifies currentInstances[id]
      ensures Valid()
      ensures Values(currentInstances) == PartlyReprioritized(before, prepared, visited + {id})
      ensures left == Filter(Undecided(currentServices, before, visited + {id}), prepared)
      ensures kept <==> id !in Stops(currentServices, before, prepared)
    {
      hide Undecided, Filter, FindId, InfoEqual, Kept, Starts, ServiceOf, WithPriority;
      VisitNext(currentServices, before, prepared, visited, id);
      assert Values(currentInstances)[id] == before[id];
      assert currentInstances[id].Value() == before[id];
      var position := FindKept(currentInstances[id], starts);
      kept := position.Some?;
      left := if kept then RemoveAt(starts, position.value) else starts;
      assert currentInstances[id].Value() == Reprioritized(before, prepared)[id];
    }

    /**
     * Compares the running instances with the prepared ones, visiting the running ones in any order. Kept
     * instances leave the list of starts in place; the others are to be stopped.
     */
    method Difference(prepared: seq<StoredInstance>)
      returns (stops: seq<RuntimeInstance>, starts: seq<StoredInstance>)
      requires Valid() && DistinctIds(prepared)
      requires Serviced()
      requires forall i :: i in prepared ==> ServiceOf(currentServices, i).Some?
      modifies Range(currentInstances)
      ensures Valid()
      ensures Values(currentInstances) == Reprioritized(old(Values(currentInstances)), prepared)
      ensures starts == Starts(currentServices, old(Values(currentInstances)), prepared)
      ensures ToStop(stops, Stops(currentServices, old(Values(currentInstances)), prepared))
    {
      ghost var before, visited := Values(currentInstances), {};
      starts, stops := prepared, [];
      NothingVisited(currentServices, before, prepared);
      assert Distinct(stops) && before.Keys == currentInstances.Keys;
      hide Undecided, Starts, Stops, PartlyReprioritized, Filter, Reprioritized, Distinct;
      var remaining := currentInstances.Keys;
      while remaining != {}
        invariant visited + remaining == currentInstances.Keys && visited !! remaining
        invariant Valid() && Values(currentInstances) == PartlyReprioritized(before, prepared, visited)
        invariant starts == Filter(Undecided(currentServices, before, visited), prepared)
        invariant Distinct(stops) && forall o :: o in stops ==> o in Range(currentInstances)
        invariant forall id :: id in currentInstances ==>
                    (currentInstances[id] in stops <==> id in Stops(currentServices, before, prepared) && id in visited)
        decreases remaining
      {
        var id :| id in remaining;
        var kept;
        kept, starts := CompareInstance(id, starts, before, prepared, visited);
        if !kept {
          DistinctAppend(stops, currentInstances[id]);
          stops := stops + [currentInstances[id]];
        }
        remaining, visited := remaining - {id}, visited + {id};
      }
      assert visited == before.Keys;
      AllVisited(currentServices, before, prepared);
    }

    /**
     * Prepares the instances in some order of descending priority and compares the prepared ones with the
     * running ones.
     */
    method CalculateInstances(runInstances: seq<StoredInstance>)
      returns (stops: seq<RuntimeInstance>, starts: seq<Runtime>, ghost sorted: seq<StoredInstance>)
      requires Valid() && DistinctIds(runInstances)
      requires Serviced()
      modifies this`errorInstances, resourceManager`allocatedDevices, Range(currentInstances)
      ensures Valid() && multiset(sorted) == multiset(runInstances) && Descending(sorted)
      ensures var prep := PrepareAll(resourceManager.nodeConfig, currentServices, sorted);
              var before := old(Values(currentInstances));
              && resourceManager.allocatedDevices == prep.alloc
              && errorInstances == FailedRuntimes(currentServices, prep.failed)
              && Values(currentInstances) == Reprioritized(before, prep.prepared)
              && starts == NewRuntimes(currentServices, Starts(currentServices, before, prep.prepared))
              && ToStop(stops, Stops(currentServices, before, prep.prepared))
    {
      var byPriority := SortByPriority(runInstances);
      sorted := byPriority;
      PreparedLooksUp(resourceManager.nodeConfig, currentServices, runInstances, sorted);
      hide PrepareAll, FailedRuntimes, Starts, Stops, Reprioritized, Descending, Records, NewRuntimes, ToStop, Valid,
        Serviced, Values;
      var prepared := PrepareInstances(byPriority);
      RecordsOfNew(currentServices, PrepareAll(resourceManager.nodeConfig, currentServices, sorted).prepared);
      var left;
      stops, left := Difference(Records(prepared));
      starts := NewRuntimes(currentServices, left);
    }

    /** `stops` lists exactly the registered objects of the instances `ids`, each once. */
    ghost predicate ToStop(stops: seq<RuntimeInstance>, ids: set<InstanceID>)
      reads this`currentInstances
    {
      && Distinct(stops) && (forall o :: o in stops ==> o in Range(currentInstances))
      && forall id :: id in currentInstances ==> (currentInstances[id] in stops <==> id in ids)
    }

    /** Opens a run, unless one is in progress. */
    method BeginRun(runInstances: seq<StoredInstance>, provider: string -> Lookup, now: int)
      returns (ok: bool, stops: seq<RuntimeInstance>, starts: seq<Runtime>, ghost sorted: seq<StoredInstance>)
      requires Valid() && DistinctIds(runInstances)
      requires Serviced()
      modifies this`currentServices, this`errorInstances, this`runInstancesInProgress
      modifies resourceManager`allocatedDevices, Range(currentInstances)
      ensures Valid() && (ok <==> !old(runInstancesInProgress))
      ensures !ok ==> Abs() == old(Abs())
      ensures ok ==>
                && multiset(sorted) == multiset(runInstances) && Descending(sorted)
                && currentServices == Cached(runInstances, provider, onlineTime, now)
                && Abs() == Calculated(old(Abs()), resourceManager.nodeConfig, currentServices, sorted)
      ensures ok ==>
                && (forall i :: i in runInstances ==>
                      Resolved(i, PrepareAll(resourceManager.nodeConfig, currentServices, sorted).prepared,
                               errorInstances, provider(i.info.ident.serviceID), onlineTime, now))
                && (forall start :: start in starts ==>
                      && start.instance in runInstances
                      && Passes(provider(start.instance.info.ident.serviceID), onlineTime, now))
      ensures ok ==>
                var prep := PrepareAll(resourceManager.nodeConfig, currentServices, sorted);
                var before := old(Values(currentInstances));
                && resourceManager.allocatedDevices == prep.alloc
                && starts == NewRuntimes(currentServices, Starts(currentServices, before, prep.prepared))
                && ToStop(stops, Stops(currentServices, before, prep.prepared))
    {
      hide PrepareAll, FailedRuntimes, Starts, Stops, Reprioritized, Descending, Cached, ToStop, Valid, Serviced,
        Values, NewRuntimes, AllRecorded, Resolved, Passes;
      if runInstancesInProgress {
        ok, stops, starts, sorted := false, [], [], [];
      } else {
        runInstancesInProgress := true;
        CacheCurrentServices(runInstances, provider, now);
        stops, starts, sorted := CalculateInstances(runInstances);
        AllAreSettled(resourceManager.nodeConfig, currentServices, runInstances, sorted, provider, onlineTime, now);
        StartsPass(resourceManager.nodeConfig, currentServices, old(Values(currentInstances)), runInstances, sorted,
                   starts, provider, onlineTime, now);
        ok := true;
      }
    }

    /** First half of a stop action. */
    method FindStop(instance: RuntimeInstance) returns (ok: bool)
      ensures ok <==> instance.instance.id in currentInstances
    {
      ok := instance.instance.id in currentInstances;
    }

    /** Last step of a stop action, taken whether or not releasing the instance failed. */
    method DeleteStopped(instance: RuntimeInstance)
      requires Valid()
      modifies this`currentInstances
      ensures Valid() && Abs() == Stopped(old(Abs()), instance.instance.id)
      ensures currentInstances == old(currentInstances) - {instance.instance.id}
    {
      currentInstances := currentInstances - {instance.instance.id};
    }

    /** First step of a start action. */
    method RegisterStart(instance: RuntimeInstance) returns (ok: bool)
      requires Valid()
      modifies this`currentInstances, instance`runStatus
      ensures Valid() && (ok <==> instance.instance.id !in old(currentInstances))
      ensures !ok ==> Abs() == old(Abs()) && currentInstances == old(currentInstances)
      ensures ok ==> Abs() == Inserted(old(Abs()), old(instance.Value()))
      ensures ok ==> currentInstances == old(currentInstances)[instance.instance.id := instance]
      ensures ok ==> instance.runStatus == NO_STATUS
    {
      if instance.instance.id in currentInstances {
        return false;
      }
      assert instance !in Range(currentInstances);
      currentInstances := currentInstances[instance.instance.id := instance];
      instance.runStatus := NO_STATUS;
      return true;
    }

    /** The runner has answered: its status counts unless the status channel was faster. */
    method ReportStart(instance: RuntimeInstance, status: RunStatus, overrides: seq<string>)
      requires Valid() && instance.instance.id in currentInstances && currentInstances[instance.instance.id] == instance
      modifies instance`runStatus, instance`overrideEnvVars
      ensures Valid() && Abs() == Reported(old(Abs()), instance.instance.id, status, overrides)
      ensures instance.runStatus == if old(instance.runStatus.state) == Unset then status else old(instance.runStatus)
      ensures instance.overrideEnvVars == overrides
    {
      instance.overrideEnvVars := overrides;
      if instance.runStatus.state == Unset {
        instance.SetRunStatus(status);
      }
    }

    method FailStart(instance: RuntimeInstance, error: LaunchError, built: Option<seq<string>>)
      requires Valid() && instance.instance.id in currentInstances && currentInstances[instance.instance.id] == instance
      modifies instance`runStatus, instance`overrideEnvVars
      ensures Valid() && Abs() == StartFailed(old(Abs()), instance.instance.id, error, built)
      ensures instance.runStatus == RunStatus(Failed, Some(error), old(instance.runStatus.exitCode))
      ensures instance.overrideEnvVars == if built.Some? then built.value else old(instance.overrideEnvVars)
    {
      if built.Some? {
        instance.overrideEnvVars := built.value;
      }
      instance.InstanceFailed(error);
    }

    /** Closes a run: reports every running and every failed instance, each map in any order. */
    method SendRunInstancesStatuses() returns (ghost order: seq<InstanceID>, ghost errorOrder: seq<InstanceID>)
      requires Valid()
      modifies this`sent, this`runInstancesInProgress
      ensures Valid() && IsOrder(order, currentInstances.Keys) && IsOrder(errorOrder, errorInstances.Keys)
      ensures Abs() == Ended(old(Abs()), order, errorOrder)
    {
      var statuses: seq<CloudStatus> := [];
      ghost var runtimes := Values(currentInstances);
      order, errorOrder := [], [];
      var remaining := currentInstances.Keys;
      while remaining != {}
        invariant Values(currentInstances) == runtimes && Valid() && sent == old(sent)
        invariant remaining <= currentInstances.Keys && IsOrder(order, currentInstances.Keys - remaining)
        invariant statuses == Clouds(order, runtimes)
        decreases remaining
      {
        var id :| id in remaining;
        assert runtimes[id] == currentInstances[id].Value();
        var status := currentInstances[id].GetCloudStatus();
        statuses, order, remaining := statuses + [status], order + [id], remaining - {id};
      }
      ghost var current := Clouds(order, runtimes);
      remaining := errorInstances.Keys;
      while remaining != {}
        invariant remaining <= errorInstances.Keys && IsOrder(errorOrder, errorInstances.Keys - remaining)
        invariant Values(currentInstances) == runtimes && Valid() && sent == old(sent)
        invariant statuses == current + Clouds(errorOrder, errorInstances)
        decreases remaining
      {
        var id :| id in remaining;
        statuses, errorOrder, remaining := statuses + [Cloud(errorInstances[id])], errorOrder + [id], remaining - {id};
      }
      runInstancesInProgress := false;
      sent := sent + [RunStatuses(statuses)];
      assert Values(currentInstances) == runtimes;
    }

    /** The running instances whose service has been offline for too long, in any order. */
    method GetOfflineTimeoutInstances(now: int) returns (instances: seq<RuntimeInstance>, ghost order: seq<InstanceID>)
      requires Valid()
      requires forall id :: id in currentInstances ==>
                 currentInstances[id].service.Some? && currentInstances[id].service.value.config.Some?
      ensures IsOrder(order, ExpiredIds(Values(currentInstances), onlineTime, now))
      ensures ObjectsOf(instances, order, currentInstances)
      ensures forall id :: id in currentInstances ==>
                (currentInstances[id] in instances <==> id in ExpiredIds(Values(currentInstances), onlineTime, now))
      ensures forall id :: id in currentInstances ==>
                var ttl := currentInstances[id].service.value.config.value.offlineTTL;
                (currentInstances[id] in instances <==>
                   && ttl != 0 && now > onlineTime + ttl
                   && currentInstances[id].runStatus.error != Some(ServiceUnusable(OfflineTimeout)))
    {
      instances, order := [], [];
      var remaining := currentInstances.Keys;
      while remaining != {}
        invariant remaining <= currentInstances.Keys
        invariant IsOrder(order, ExpiredIds(Values(currentInstances), onlineTime, now) - remaining)
        invariant ObjectsOf(instances, order, currentInstances)
        invariant forall id :: id in currentInstances ==>
                    (currentInstances[id] in instances <==>
                     id in ExpiredIds(Values(currentInstances), onlineTime, now) - remaining)
        decreases remaining
      {
        var id :| id in remaining;
        var instance := currentInstances[id];
        assert Values(currentInstances)[id] == instance.Value();
        var ttl := instance.service.value.config.value.offlineTTL;
        if ttl != 0 && onlineTime + ttl < now && !IsOffline(instance.runStatus.error) {
          instances, order := instances + [instance], order + [id];
        }
        remaining := remaining - {id};
      }
    }

    /** Stops instances one after the other. */
    method StopInstances(instances: seq<RuntimeInstance>)
      requires Valid()
      modifies this`currentInstances
      ensures Valid() && currentInstances == old(currentInstances) - (set o | o in instances :: o.instance.id)
    {
      for i := 0 to |instances|
        invariant currentInstances == old(currentInstances) - (set o | o in instances[..i] :: o.instance.id)
      {
        assert instances[..i + 1] == instances[..i] + [instances[i]];
        var ok := FindStop(instances[i]);
        if ok {
          DeleteStopped(instances[i]);
        }
      }
      assert instances[..|instances|] == instances;
    }

    /** Puts one stopped instance back as failed. */
    method SetOffline(instance: RuntimeInstance, ghost objects: Objects, ghost ids: set<InstanceID>)
      returns (status: CloudStatus)
      requires Registered(objects) && instance.instance.id in objects && objects[instance.instance.id] == instance
      requires currentInstances == objects - ids
      modifies this`currentInstances, instance`runStatus
      ensures Registered(objects) && currentInstances == objects - (ids - {instance.instance.id})
      ensures var failed := Fail(old(Values(objects))[instance.instance.id], ServiceUnusable(OfflineTimeout));
              && Values(objects) == old(Values(objects))[instance.instance.id := failed]
              && status == Cloud(failed)
    {
      currentInstances := currentInstances[instance.instance.id := instance];
      instance.InstanceFailed(ServiceUnusable(OfflineTimeout));
      status := instance.GetCloudStatus();
    }

    /** Puts the stopped instances back as failed, one after the other. */
    method SetAllOffline(instances: seq<RuntimeInstance>, ghost order: seq<InstanceID>, ghost objects: Objects)
      returns (statuses: seq<CloudStatus>)
      requires Registered(objects) && Distinct(order) && ObjectsOf(instances, order, objects)
      requires currentInstances == objects - Elements(order)
      modifies this`currentInstances, instances
      ensures Registered(objects) && currentInstances == objects
      ensures Values(objects) == FailAll(old(Values(objects)), Elements(order))
      ensures statuses == FailedClouds(order, old(Values(objects)))
    {
      statuses := [];
      ghost var before := Values(objects);
      OfflineEnds(before, order);
      hide FailAll, Fail, Cloud, Clouds, FailedClouds, Elements, Values, Distinct;
      for i := 0 to |instances|
        invariant currentInstances == objects - Elements(order[i..])
        invariant Values(objects) == FailAll(before, Elements(order[..i]))
        invariant Registered(objects)
        invariant statuses == FailedClouds(order[..i], before)
      {
        FailNext(before, order, i);
        var status := SetOffline(instances[i], objects, Elements(order[i..]));
        statuses := statuses + [status];
      }
    }

    /** Puts the stopped instances back as failed and reports them. */
    method SetOfflineInstancesStatus(
        instances: seq<RuntimeInstance>, ghost order: seq<InstanceID>, ghost objects: Objects)
      requires Registered(objects) && Distinct(order) && ObjectsOf(instances, order, objects)
      requires currentInstances == objects - Elements(order) && instances != []
      modifies this`currentInstances, this`sent, instances
      ensures Valid() && currentInstances == objects
      ensures Values(objects) == FailAll(old(Values(objects)), Elements(order))
      ensures sent == Send(old(sent), Clouds(order, FailAll(old(Values(objects)), Elements(order))))
    {
      OfflineEnds(Values(objects), order);
      hide FailAll, Fail, Cloud, Elements;
      var statuses := SetAllOffline(instances, order, objects);
      sent := sent + [UpdateStatuses(statuses)];
    }

    /** The periodic check of the offline timeouts. */
    method UpdateOfflineTimeouts(now: int) returns (ghost order: seq<InstanceID>)
      requires Valid()
      requires forall id :: id in currentInstances ==>
                 currentInstances[id].service.Some? && currentInstances[id].service.value.config.Some?
      modifies this`onlineTime, this`currentInstances, this`sent, Range(currentInstances)
      ensures Valid() && currentInstances == old(currentInstances)
      ensures isCloudOnline ==> onlineTime == now && Abs() == old(Abs())
      ensures !isCloudOnline ==> onlineTime == old(onlineTime)
      ensures !isCloudOnline ==>
                && IsOrder(order, ExpiredIds(old(Values(currentInstances)), onlineTime, now))
                && Abs() == Swept(old(Abs()), order)
      ensures !isCloudOnline ==>
                && (forall id :: id in currentInstances ==>
                      SweptTo(old(Values(currentInstances))[id], currentInstances[id].Value(), onlineTime, now))
                && (forall id :: id in currentInstances ==>
                      (id in order <==> currentInstances[id].Value() != old(Values(currentInstances))[id]))
    {
      order := [];
      if isCloudOnline {
        onlineTime := now;
        return;
      }
      ghost var core := Abs();
      SameValues(currentInstances);
      hide ExpiredIds, FailAll, Clouds, SweptTo, Swept, IsOrder;
      order := SweepOffline(now);
      SweepIsExact(core, onlineTime, now, order);
      SameValues(currentInstances);
    }

    /** Stops the expired instances and puts them back as failed. */
    method SweepOffline(now: int) returns (ghost order: seq<InstanceID>)
      requires Valid()
      requires forall id :: id in currentInstances ==>
                 currentInstances[id].service.Some? && currentInstances[id].service.value.config.Some?
      modifies this`currentInstances, this`sent, Range(currentInstances)
      ensures Valid() && currentInstances == old(currentInstances)
      ensures IsOrder(order, ExpiredIds(old(Values(currentInstances)), onlineTime, now))
      ensures Abs() == Swept(old(Abs()), order)
    {
      var instances;
      instances, order := GetOfflineTimeoutInstances(now);
      if |instances| == 0 {
        assert FailAll(Values(currentInstances), {}) == Values(currentInstances);
        return;
      }
      ghost var objects := currentInstances;
      StopInstances(instances);
      StoppedIds(instances, order, objects);
      hide ExpiredIds, FailAll, Clouds;
      SetOfflineInstancesStatus(instances, order, objects);
    }

    /** The end of a start action, however the start went. */
    method FinishStart(instance: RuntimeInstance, result: StartOutcome)
      requires Valid() && instance.instance.id in currentInstances && currentInstances[instance.instance.id] == instance
      modifies instance`runStatus, instance`overrideEnvVars
      ensures Valid() && instance.runStatus.state != Unset
      ensures EndedAs(old(instance.Value()), instance.Value(), result,
                      Overrides(envVars.currentEnvVars, instance.instance.info.ident))
      ensures Abs() == StartEnd(old(Abs()), instance.instance.id, result,
                                Overrides(envVars.currentEnvVars, instance.instance.info.ident))
    {
      var overrides := envVars.GetInstanceEnvVars(instance.instance.info.ident);
      match result {
        case SetupFailed(error, built) => FailStart(instance, error, if built then Some(overrides) else None);
        case RunnerAnswered(status) => ReportStart(instance, status, overrides);
      }
      assert Abs().current[instance.instance.id] == instance.Value();
    }

    /** One start action, without anything in between its steps. */
    method StartInstance(start: Runtime, result: StartOutcome) returns (ok: bool)
      requires Valid() && StatesSet()
      modifies this`currentInstances
      ensures Valid() && StatesSet() && (ok <==> start.instance.id !in old(currentInstances))
      ensures currentInstances.Keys == old(currentInstances.Keys) + {start.instance.id}
      ensures forall id :: id in old(currentInstances) ==> currentInstances[id] == old(currentInstances[id])
      ensures ok ==>
                && fresh(currentInstances[start.instance.id])
                && EndedAs(start.(status := NO_STATUS), currentInstances[start.instance.id].Value(), result,
                           Overrides(envVars.currentEnvVars, start.instance.info.ident))
      ensures ok ==> Abs() == StartEnd(Inserted(old(Abs()), start), start.instance.id, result,
                                       Overrides(envVars.currentEnvVars, start.instance.info.ident))
    {
      hide StartEnd, Inserted, Overrides, EndedAs;
      ghost var core := Abs();
      var instance := new RuntimeInstance.FromRecord(start);
      assert Abs() == core;
      ok := RegisterStart(instance);
      if ok {
        FinishStart(instance, result);
      }
    }

    /* ---- Environment variables ---- */

    /** The stop and the start action of one restart, with nothing in between. */
    method RestartInstance(instance: RuntimeInstance, result: StartOutcome)
      requires Valid() && instance.instance.id in currentInstances && currentInstances[instance.instance.id] == instance
      modifies this`currentInstances, instance`runStatus, instance`overrideEnvVars
      ensures Valid() && currentInstances == old(currentInstances)
      ensures Values(currentInstances) == old(Values(currentInstances))[instance.instance.id :=
                Restarted(old(instance.Value()), result,
                          Overrides(envVars.currentEnvVars, instance.instance.info.ident))]
      ensures EndedAs(old(instance.Value()).(status := NO_STATUS), instance.Value(), result,
                      Overrides(envVars.currentEnvVars, instance.instance.info.ident))
    {
      ghost var core, id := Abs(), instance.instance.id;
      assert core.current == Values(currentInstances) && core.current[id] == instance.Value();
      RestartedCore(core, id, result, Overrides(envVars.currentEnvVars, instance.instance.info.ident));
      PutBack(currentInstances, id);
      hide Overrides, Values, StartEnd, Inserted, Stopped, Restarted;
      var found := FindStop(instance);
      DeleteStopped(instance);
      var registered := RegisterStart(instance);
      FinishStart(instance, result);
    }

    /**
     * The iteration over the running instances. It produces every one, and may produce one again that a restart put
     * back into the map; `visits` is what it produces, `results` how the start of each visit ends, if there is one.
     */
    method VisitInstances(visits: seq<InstanceID>, results: seq<StartOutcome>)
      returns (restarted: seq<InstanceID>, statusMap: map<InstanceID, RunState>)
      requires Valid() && |visits| <= |results| && forall id :: id in visits ==> id in currentInstances
      modifies this`currentInstances, Range(currentInstances)
      ensures Valid() && currentInstances == old(currentInstances)
      ensures Progress(Values(currentInstances), statusMap, restarted) ==
              VisitAll(old(Values(currentInstances)), envVars.currentEnvVars, visits, results)
    {
      restarted, statusMap := [], map[];
      ghost var before := Values(currentInstances);
      assert VisitAll(before, envVars.currentEnvVars, visits[..0], results) == Progress(before, map[], []);
      assert visits[..|visits|] == visits;
      hide Overrides, Values, Restarted, VisitAll;
      for k := 0 to |visits|
        invariant Valid() && currentInstances == old(currentInstances)
        invariant Progress(Values(currentInstances), statusMap, restarted) ==
                  VisitAll(before, envVars.currentEnvVars, visits[..k], results)
      {
        VisitMore(before, envVars.currentEnvVars, visits, results, k);
        restarted, statusMap := VisitInstance(visits[k], results[k], restarted, statusMap);
      }
    }

    method VisitInstance(
        id: InstanceID, result: StartOutcome, restarted: seq<InstanceID>, statusMap: map<InstanceID, RunState>)
      returns (longer: seq<InstanceID>, saved: map<InstanceID, RunState>)
      requires Valid() && id in currentInstances
      modifies this`currentInstances, currentInstances[id]
      ensures Valid() && currentInstances == old(currentInstances)
      ensures Progress(Values(currentInstances), saved, longer) ==
              Visit(Progress(old(Values(currentInstances)), statusMap, restarted), envVars.currentEnvVars, id, result)
      ensures var selected := Overrides(envVars.currentEnvVars, currentInstances[id].instance.info.ident);
              if old(currentInstances[id].overrideEnvVars) == selected then longer == restarted && saved == statusMap
              else longer == restarted + [id] && saved == statusMap[id := old(currentInstances[id].runStatus.state)]
    {
      hide Overrides, Restarted;
      longer, saved := restarted, statusMap;
      var instance := currentInstances[id];
      assert Values(currentInstances)[id] == instance.Value();
      var selected := envVars.GetInstanceEnvVars(instance.instance.info.ident);
      if selected != instance.overrideEnvVars {
        saved := saved[id := instance.runStatus.state];
        RestartInstance(instance, result);
        longer := longer + [id];
      }
    }

    /** Restarts whatever carries outdated variables and reports those whose state is not the saved one. */
    method CheckInstances(visits: seq<InstanceID>, results: seq<StartOutcome>)
      returns (restarted: seq<InstanceID>, ghost order: seq<InstanceID>)
      requires Valid() && |visits| <= |results| && forall id :: id in visits ==> id in currentInstances
      modifies this`currentInstances, this`sent, Range(currentInstances)
      ensures Valid() && currentInstances == old(currentInstances)
      ensures var after := VisitAll(old(Values(currentInstances)), envVars.currentEnvVars, visits, results);
              && Values(currentInstances) == after.current && restarted == after.restarted
              && IsOrder(order, ToReport(after))
              && sent == Send(old(sent), Clouds(order, after.current))
    {
      ghost var after := VisitAll(Values(currentInstances), envVars.currentEnvVars, visits, results);
      SavedKeys(Values(currentInstances), envVars.currentEnvVars, visits, results);
      assert Values(currentInstances).Keys == currentInstances.Keys;
      hide VisitAll, Overrides, Values, Clouds, ToReport, IsOrder, Send, Outdated, Elements;
      var statusMap;
      restarted, statusMap := VisitInstances(visits, results);
      order := ReportChanged(statusMap, after);
    }

    method UpdateInstancesEnvVars(visits: seq<InstanceID>, results: seq<StartOutcome>, now: int, stored: bool)
      returns (restarted: seq<InstanceID>, ghost order: seq<InstanceID>)
      requires Valid() && |visits| <= |results| && Elements(visits) == currentInstances.Keys
      modifies this`currentInstances, this`sent, envVars, Range(currentInstances)
      ensures Valid() && currentInstances == old(currentInstances)
      ensures envVars.currentEnvVars == Cleaned(old(envVars.currentEnvVars), now)
      ensures var after := VisitAll(old(Values(currentInstances)), envVars.currentEnvVars, visits, results);
              && Values(currentInstances) == after.current && restarted == after.restarted
              && IsOrder(order, ToReport(after))
              && sent == Send(old(sent), Clouds(order, after.current))
    {
      assert forall id :: id in visits ==> id in Elements(visits);
      hide Cleaned, VisitAll, Overrides, Values, Clouds, ToReport, IsOrder, Send, Outdated, Elements;
      envVars.RemoveOutdatedEnvVars(now, stored);
      restarted, order := CheckInstances(visits, results);
    }

    /** The closing message, in any order of the saved states. */
    method ReportChanged(statusMap: map<InstanceID, RunState>, ghost after: Progress)
      returns (ghost order: seq<InstanceID>)
      requires Valid() && after.current == Values(currentInstances) && after.saved == statusMap
      requires statusMap.Keys <= currentInstances.Keys
      modifies this`sent
      ensures IsOrder(order, ToReport(after)) && sent == Send(old(sent), Clouds(order, after.current))
      ensures forall id :: id in statusMap ==>
                (id in order <==> currentInstances[id].runStatus.state != statusMap[id])
      ensures AtMostOneMore(old(sent), sent)
    {
      var statuses: seq<CloudStatus> := [];
      order := [];
      var remaining := statusMap.Keys;
      while remaining != {}
        invariant remaining <= statusMap.Keys && sent == old(sent)
        invariant IsOrder(order, ToReport(after) - remaining)
        invariant statuses == Clouds(order, after.current)
        decreases remaining
      {
        var id :| id in remaining;
        assert after.current[id] == currentInstances[id].Value();
        if statusMap[id] != currentInstances[id].runStatus.state {
          var status := currentInstances[id].GetCloudStatus();
          statuses, order := statuses + [status], order + [id];
        }
        remaining := remaining - {id};
      }
      if |statuses| > 0 {
        sent := sent + [UpdateStatuses(statuses)];
      }
    }

    /**
     * An accepted request: afterwards every running instance carries, in order, what the request selects for it and is
     * not expired, unless all starts of its restarts failed before the spec was rebuilt.
     */
    method OverrideEnvVars(
        envVarsInfo: seq<EnvVarsInfo>, now: int, later: int, stored: bool, visits: seq<InstanceID>,
        results: seq<StartOutcome>)
      returns (envVarsStatus: seq<InfoStatus>)
      requires Valid() && |visits| <= |results| && Elements(visits) == currentInstances.Keys
      modifies this`currentInstances, this`sent, envVars, Range(currentInstances)
      ensures Valid() && currentInstances == old(currentInstances)
      ensures forall id :: id in currentInstances ==>
                || currentInstances[id].overrideEnvVars ==
                   Texts(Filter(NotExpired(later), Selected(envVarsInfo, currentInstances[id].instance.info.ident)))
                || AlwaysUnbuilt(visits, results, id)
      ensures forall id, text :: id in currentInstances && !AlwaysUnbuilt(visits, results, id) ==>
                (text in currentInstances[id].overrideEnvVars <==>
                   exists v :: Sets(envVarsInfo, currentInstances[id].instance.info.ident, v)
                               && (v.ttl == None || later <= v.ttl.value) && text == v.name + "=" + v.value)
      ensures |envVarsStatus| == |envVarsInfo|
      ensures forall i :: 0 <= i < |envVarsInfo| ==> IsStatus(envVarsStatus[i], envVarsInfo[i], now, stored)
    {
      envVarsStatus := envVars.SetEnvVars(envVarsInfo, now, stored);
      ghost var before := Values(currentInstances);
      hide VisitAll, Cleaned, Filter, Selected, Texts, IsStatus;
      ghost var infos := Cleaned(envVarsInfo, later);
      var restarted, order := UpdateInstancesEnvVars(visits, results, later, stored);
      VisitsSettle(before, infos, visits, results);
      forall id | id in currentInstances
        ensures || currentInstances[id].overrideEnvVars ==
                   Texts(Filter(NotExpired(later), Selected(envVarsInfo, currentInstances[id].instance.info.ident)))
                || AlwaysUnbuilt(visits, results, id)
      {
        assert Values(currentInstances)[id] == currentInstances[id].Value();
        OverridesSettle(envVarsInfo, later, currentInstances[id].instance.info.ident);
      }
      hide AlwaysUnbuilt, Sets;
      forall id, text | id in currentInstances && !AlwaysUnbuilt(visits, results, id)
        ensures text in currentInstances[id].overrideEnvVars <==>
                exists v :: Sets(envVarsInfo, currentInstances[id].instance.info.ident, v)
                            && (v.ttl == None || later <= v.ttl.value) && text == v.name + "=" + v.value
      {
        UnexpiredTexts(envVarsInfo, later, currentInstances[id].instance.info.ident);
      }
    }

    /** No running instance has the empty state. */
    ghost predicate StatesSet()
      reads this`currentInstances, Range(currentInstances)
    {
      forall id :: id in currentInstances ==> currentInstances[id].runStatus.state != Unset
    }

    method StartInstances(starts: seq<Runtime>, results: InstanceID -> StartOutcome)
      requires Valid() && StatesSet()
      modifies this`currentInstances
      ensures Valid() && StatesSet()
      ensures currentInstances.Keys == old(currentInstances.Keys) + Elements(Ids(Records(starts)))
      ensures forall id :: id in currentInstances ==>
                if id in old(currentInstances) then currentInstances[id] == old(currentInstances)[id]
                else fresh(currentInstances[id])
    {
      for i := 0 to |starts|
        invariant Valid() && StatesSet()
        invariant forall id :: id in currentInstances ==>
                    if id in old(currentInstances) then currentInstances[id] == old(currentInstances)[id]
                    else fresh(currentInstances[id])
        invariant currentInstances.Keys == old(currentInstances.Keys) + Elements(Ids(Records(starts[..i])))
      {
        assert Ids(Records(starts[..i + 1])) == Ids(Records(starts[..i])) + [starts[i].instance.id];
        hide Records, Ids;
        var ok := StartInstance(starts[i], results(starts[i].instance.id));
      }
      assert starts[..|starts|] == starts;
    }

    /** Stops every running instance, in any order. */
    method StopCurrentInstances()
      requires Valid()
      modifies this`currentInstances
      ensures currentInstances == map[]
    {
      var remaining := currentInstances.Keys;
      var instances: seq<RuntimeInstance> := [];
      while remaining != {}
        invariant remaining <= currentInstances.Keys
        invariant forall id :: id in currentInstances ==> id in remaining || currentInstances[id] in instances
        decreases remaining
      {
        var id :| id in remaining;
        instances, remaining := instances + [currentInstances[id]], remaining - {id};
      }
      StopInstances(instances);
    }

    /** Stops the instances of `ids`, and none else. */
    method StopSome(stops: seq<RuntimeInstance>, ghost ids: set<InstanceID>)
      requires Valid() && ToStop(stops, ids)
      modifies this`currentInstances
      ensures Valid() && currentInstances == old(currentInstances) - ids
    {
      ghost var stopped := set o | o in stops :: o.instance.id;
      forall id | id in currentInstances
        ensures id in stopped <==> id in ids
      {
        if id in ids {
          assert currentInstances[id].instance.id == id;
        }
      }
      StopInstances(stops);
    }

    /** Opens a run: what stays, what starts and what failed make up the rows, and what stays is active. */
    method OpenRun(runInstances: seq<StoredInstance>, provider: string -> Lookup, now: int, ghost rows: Rows)
      returns (
        ok: bool, stops: seq<RuntimeInstance>, starts: seq<Runtime>, ghost stopIds: set<InstanceID>,
        ghost prepared: seq<StoredInstance>)
      requires Valid() && Keyed(Values(currentInstances)) && IsListing(runInstances, rows)
      modifies this`currentServices, this`errorInstances, this`runInstancesInProgress
      modifies resourceManager`allocatedDevices, Range(currentInstances)
      ensures Valid() && (ok <==> !old(runInstancesInProgress))
      ensures !ok ==> Abs() == old(Abs())
      ensures currentInstances == old(currentInstances)
      ensures ok ==>
                && ToStop(stops, stopIds)
                && Partition3(currentInstances.Keys - stopIds, Elements(Ids(Records(starts))), errorInstances.Keys,
                              rows.Keys)
                && (forall id :: id in currentInstances - stopIds ==> currentInstances[id].runStatus.state == Active)
                && (forall i :: i in runInstances ==>
                      Resolved(i, prepared, errorInstances, provider(i.info.ident.serviceID), onlineTime, now))
    {
      hide PrepareAll, Starts, Stops, Cached, Descending, Reprioritized, FailedRuntimes, NewRuntimes, Replay, Clouds,
        Serviced, ToStop, Calculated, Resolved, Passes;
      ghost var core := Abs();
      stopIds, prepared := {}, [];
      ServicedWhenKeyed();
      ghost var sorted;
      ok, stops, starts, sorted := BeginRun(runInstances, provider, now);
      if ok {
        stopIds := RunPartition(core, rows, resourceManager.nodeConfig, currentServices, runInstances, sorted, starts);
        prepared := PrepareAll(resourceManager.nodeConfig, currentServices, sorted).prepared;
        assert currentInstances.Keys == Values(currentInstances).Keys;
        ActiveSet(stopIds);
      }
    }

    /**
     * A whole run over the given instances, without status batches in between. Refused while another run is in
     * progress.
     */
    method RunListed(
        runInstances: seq<StoredInstance>, provider: string -> Lookup, now: int, results: InstanceID -> StartOutcome,
        ghost rows: Rows)
      returns (ok: bool)
      requires Valid() && Keyed(Values(currentInstances)) && IsListing(runInstances, rows)
      modifies this, resourceManager`allocatedDevices, Range(currentInstances)
      ensures Valid() && (ok <==> !old(runInstancesInProgress))
      ensures !ok ==> Abs() == old(Abs())
      ensures ok ==>
                && StatesSet() && !runInstancesInProgress
                && currentInstances.Keys !! errorInstances.Keys
                && currentInstances.Keys + errorInstances.Keys == rows.Keys
      ensures ok ==> AllRan(rows, currentInstances.Keys, errorInstances, provider, old(onlineTime), now)
      ensures forall id :: id in currentInstances ==>
                || (id in old(currentInstances) && currentInstances[id] == old(currentInstances)[id])
                || fresh(currentInstances[id])
    {
      hide Clouds, ToStop, Resolved, AllRan, Keyed, IsListing, Values;
      var stops, starts;
      ghost var stopIds, prepared;
      ok, stops, starts, stopIds, prepared := OpenRun(runInstances, provider, now, rows);
      if ok {
        StopSome(stops, stopIds);
        StartInstances(starts, results);
        var order, errorOrder := SendRunInstancesStatuses();
        AllHaveRun(runInstances, rows, prepared, currentInstances.Keys, errorInstances, provider, onlineTime, now);
      }
    }

    lemma ServicedWhenKeyed()
      requires Valid() && Keyed(Values(currentInstances))
      ensures Serviced()
    {
      forall id | id in currentInstances
        ensures currentInstances[id].service.Some?
      {
        assert Values(currentInstances)[id].service.Some?;
      }
    }

    lemma ActiveSet(ids: set<InstanceID>)
      requires forall id :: id in Values(currentInstances) && id !in ids ==>
                 Values(currentInstances)[id].status.state == Active
      ensures forall id :: id in currentInstances - ids ==> currentInstances[id].runStatus.state == Active
    {
      forall id | id in currentInstances - ids
        ensures currentInstances[id].runStatus.state == Active
      {
        assert Values(currentInstances)[id].status.state == Active;
      }
    }

    /**
     * A whole request, without status batches in between: afterwards the running and the failed instances are
     * disjoint and together are exactly the stored ones, which answer the request, and no state is empty.
     */
    method RunInstances(
        desired: seq<InstanceInfo>, forceRestart: bool, uuids: seq<InstanceID>, provider: string -> Lookup, now: int,
        results: InstanceID -> StartOutcome)
      requires Valid() && Keyed(Values(currentInstances)) && !runInstancesInProgress
      requires |desired| <= |uuids| && Fresh(uuids, storage.rows)
      modifies this, storage, resourceManager`allocatedDevices, Range(currentInstances)
      ensures Valid() && StatesSet() && !runInstancesInProgress
      ensures currentInstances.Keys !! errorInstances.Keys
      ensures currentInstances.Keys + errorInstances.Keys == storage.rows.Keys
      ensures |storage.rows| == |desired|
      ensures exists running :: IsListing(running, storage.rows) && Answers(running, desired)
      ensures AllRan(storage.rows, currentInstances.Keys, errorInstances, provider, old(onlineTime), now)
      ensures forceRestart ==> forall id :: id in currentInstances ==> fresh(currentInstances[id])
    {
      hide IsListing, Answers, Fresh, StatesSet, Keyed;
      if forceRestart {
        StopCurrentInstances();
        NoneKeyed();
      }
      var runInstances := MatchRequest(desired, uuids);
      hide AllRan;
      var ok := RunListed(runInstances, provider, now, results, storage.rows);
    }

    lemma NoneKeyed()
      requires currentInstances == map[]
      ensures Keyed(Values(currentInstances)) && Valid()
    {
    }

    /** The instances to run for a request, and the storage brought in line with it. */
    method MatchRequest(desired: seq<InstanceInfo>, uuids: seq<InstanceID>) returns (running: seq<StoredInstance>)
      requires |desired| <= |uuids| && Fresh(uuids, storage.rows)
      modifies storage
      ensures IsListing(running, storage.rows) && Answers(running, desired) && |storage.rows| == |desired|
    {
      hide IsListing, MatchDesired, RowsAfter, Answers, WritesAfter, Fresh;
      ghost var rows := storage.rows;
      ghost var list;
      running, list := GetRunningInstances(storage, desired, uuids);
      StorageAnswers(list, rows, desired, uuids);
    }
  }

  /** Sorts by descending priority; nothing is promised about the order of equal priorities. */
  method SortByPriority(instances: seq<StoredInstance>) returns (sorted: seq<StoredInstance>)
    ensures multiset(sorted) == multiset(instances) && Descending(sorted)
  {
    sorted := [];
    for i := 0 to |instances|
      invariant multiset(sorted) == multiset(instances[..i]) && Descending(sorted)
    {
      sorted := InsertByPriority(sorted, instances[i]);
      assert instances[..i + 1] == instances[..i] + [instances[i]];
    }
    assert instances[..|instances|] == instances;
  }

  method InsertByPriority(sorted: seq<StoredInstance>, instance: StoredInstance) returns (longer: seq<StoredInstance>)
    requires Descending(sorted)
    ensures multiset(longer) == multiset(sorted) + multiset{instance} && Descending(longer)
  {
    var j := 0;
    while j < |sorted| && sorted[j].info.priority >= instance.info.priority
      invariant j <= |sorted|
      invariant forall k :: 0 <= k < j ==> sorted[k].info.priority >= instance.info.priority
    {
      j := j + 1;
    }
    InsertMultiset(sorted, j, instance);
    InsertDescending(sorted, j, instance);
    longer := sorted[..j] + [instance] + sorted[j..];
  }

  lemma InsertDescending(s: seq<StoredInstance>, j: nat, x: StoredInstance)
    requires j <= |s| && Descending(s)
    requires forall k :: 0 <= k < j ==> s[k].info.priority >= x.info.priority
    requires j < |s| ==> s[j].info.priority < x.info.priority
    ensures Descending(s[..j] + [x] + s[j..])
  {
  }
}
