/** From the provider's answer about a service to the instances that start, wait for a device or fail. */
module ServiceChecks {
  import opened Sequences
  import opened Instances
  import opened Devices
  import opened Preparation
  import opened Reconciler

  /** The time to live has not run out since the cloud was last online; 0 never does. */
  ghost predicate InTime(ttl: int, onlineTime: int, now: int) {
    ttl == 0 || now <= onlineTime + ttl
  }

  /** The lookup succeeded, the configuration is there and all further checks pass. */
  ghost predicate Passes(lookup: Lookup, onlineTime: int, now: int) {
    && lookup.error == None && lookup.config.Some? && InTime(lookup.config.value.offlineTTL, onlineTime, now)
    && lookup.imageOk && lookup.valid
  }

  /** The one error that a failing answer leads to: that of the first check that fails. */
  ghost predicate FailsWith(lookup: Lookup, onlineTime: int, now: int, error: ServiceError) {
    if lookup.error != None then lookup.error == Some(error)
    else
      match error
      case ConfigError => lookup.config == None
      case OfflineTimeout => lookup.config.Some? && !InTime(lookup.config.value.offlineTTL, onlineTime, now)
      case ImageError =>
        lookup.config.Some? && InTime(lookup.config.value.offlineTTL, onlineTime, now) && !lookup.imageOk
      case ValidationError =>
        && lookup.config.Some? && InTime(lookup.config.value.offlineTTL, onlineTime, now)
        && lookup.imageOk && !lookup.valid
      case _ => false
  }

  /** The recorded entry says so. */
  ghost predicate Recorded(entry: ServiceEntry, lookup: Lookup, onlineTime: int, now: int) {
    && (entry.error == None <==> Passes(lookup, onlineTime, now))
    && (forall error :: entry.error == Some(error) <==> FailsWith(lookup, onlineTime, now, error))
    && (lookup.error == None ==> entry.config == lookup.config && entry.version == lookup.version)
  }

  /** Exactly the services of these instances are recorded. */
  ghost predicate AllRecorded(
      services: Services, instances: seq<StoredInstance>, provider: string -> Lookup, onlineTime: int, now: int)
  {
    && (forall i :: i in instances ==> i.info.ident.serviceID in services)
    && (forall serviceID :: serviceID in services ==>
          && (exists i :: i in instances && i.info.ident.serviceID == serviceID)
          && Recorded(services[serviceID], provider(serviceID), onlineTime, now))
  }

  lemma CheckIsRecorded(serviceID: string, lookup: Lookup, onlineTime: int, now: int)
    ensures Recorded(Entry(serviceID, lookup, onlineTime, now), lookup, onlineTime, now)
  {
  }

  /** Passing or failing is settled by the answer and the time alone, and a failing answer has one error. */
  lemma ErrorIsUnique(lookup: Lookup, onlineTime: int, now: int, a: ServiceError, b: ServiceError)
    ensures FailsWith(lookup, onlineTime, now, a) && FailsWith(lookup, onlineTime, now, b) ==> a == b
    ensures Passes(lookup, onlineTime, now) ==> !FailsWith(lookup, onlineTime, now, a)
  {
  }

  lemma CachedAreRecorded(instances: seq<StoredInstance>, provider: string -> Lookup, onlineTime: int, now: int)
    ensures AllRecorded(Cached(instances, provider, onlineTime, now), instances, provider, onlineTime, now)
  {
    var services := Cached(instances, provider, onlineTime, now);
    forall serviceID | serviceID in services
      ensures Recorded(services[serviceID], provider(serviceID), onlineTime, now)
    {
      CheckIsRecorded(serviceID, provider(serviceID), onlineTime, now);
    }
    hide Recorded, Entry;
  }

  /* ---- Which instances are prepared ---- */

  /** Why the preparation failed: the error of the service check, or no device for a service that passed. */
  ghost predicate Explained(i: StoredInstance, error: LaunchError, lookup: Lookup, onlineTime: int, now: int) {
    if Passes(lookup, onlineTime, now) then error.DeviceRefused?
    else error.ServiceUnusable? && FailsWith(lookup, onlineTime, now, error.reason)
  }

  lemma OneIsExplained(
      config: NodeConfig, services: Services, alloc: Allocation, i: StoredInstance, lookup: Lookup, onlineTime: int,
      now: int)
    requires i.info.ident.serviceID in services
    requires Recorded(services[i.info.ident.serviceID], lookup, onlineTime, now)
    ensures var error := PrepareOne(config, services, alloc, i).1;
            && (error == None ==> Passes(lookup, onlineTime, now))
            && (error != None ==> Explained(i, error.value, lookup, onlineTime, now))
  {
    hide AllocateAll, Passes, FailsWith;
  }

  lemma {:induction false} AllAreExplained(
      config: NodeConfig, services: Services, instances: seq<StoredInstance>, sorted: seq<StoredInstance>,
      provider: string -> Lookup, onlineTime: int, now: int)
    requires AllRecorded(services, instances, provider, onlineTime, now)
    requires forall i :: i in sorted ==> i in instances
    ensures var prep := PrepareAll(config, services, sorted);
            && (forall p :: p in prep.prepared ==> Passes(provider(p.info.ident.serviceID), onlineTime, now))
            && (forall f :: f in prep.failed ==>
                  Explained(f.instance, f.error, provider(f.instance.info.ident.serviceID), onlineTime, now))
    decreases |sorted|
  {
    if sorted != [] {
      var n := |sorted| - 1;
      var before := PrepareAll(config, services, sorted[..n]);
      AllAreExplained(config, services, instances, sorted[..n], provider, onlineTime, now);
      assert sorted[n] in sorted;
      OneIsExplained(config, services, before.alloc, sorted[n], provider(sorted[n].info.ident.serviceID), onlineTime,
                     now);
      hide PrepareOne, Passes, Explained, AllRecorded;
    }
  }

  lemma {:induction false} FailureKept(services: Services, failed: seq<Failure>, f: Failure)
    requires f in failed
    requires forall i, j :: 0 <= i < j < |failed| ==> failed[i].instance.id != failed[j].instance.id
    ensures var errors := FailedRuntimes(services, failed);
            f.instance.id in errors && errors[f.instance.id].status == RunStatus(Failed, Some(f.error), 0)
  {
    var n := |failed| - 1;
    if f != failed[n] {
      var k :| 0 <= k < |failed| && failed[k] == f;
      assert failed[..n][k] == f;
      FailureKept(services, failed[..n], f);
    }
  }

  /** What a calculation makes of one instance of the list. */
  ghost predicate Resolved(
      i: StoredInstance, prepared: seq<StoredInstance>, errors: Runtimes, lookup: Lookup, onlineTime: int, now: int)
  {
    || (i in prepared && i.id !in errors && Passes(lookup, onlineTime, now))
    || (i !in prepared && i.id in errors && RefusedAs(errors[i.id].status, i, lookup, onlineTime, now))
  }

  ghost predicate RefusedAs(status: RunStatus, i: StoredInstance, lookup: Lookup, onlineTime: int, now: int) {
    && status.state == Failed && status.exitCode == 0 && status.error.Some?
    && Explained(i, status.error.value, lookup, onlineTime, now)
  }

  /**
   * After the services of a list were cached and it was prepared in any order: every instance is either prepared, and
   * its provider's answer passes all checks, or failed, with the error of the first failing check, or for a device.
   */
  lemma AllAreSettled(
      config: NodeConfig, services: Services, instances: seq<StoredInstance>, sorted: seq<StoredInstance>,
      provider: string -> Lookup, onlineTime: int, now: int)
    requires DistinctIds(instances) && multiset(sorted) == multiset(instances)
    requires AllRecorded(services, instances, provider, onlineTime, now)
    ensures var prep := PrepareAll(config, services, sorted);
            forall i :: i in instances ==>
              Resolved(i, prep.prepared, FailedRuntimes(services, prep.failed), provider(i.info.ident.serviceID),
                      onlineTime, now)
  {
    PermutedIds(instances, sorted);
    AllAreExplained(config, services, instances, sorted, provider, onlineTime, now);
    PreparePartition(config, services, sorted);
    PrepareDisjoint(config, services, sorted);
    var prep := PrepareAll(config, services, sorted);
    hide PrepareAll, AllRecorded, Passes, Explained;
    forall i | i in instances
      ensures Resolved(i, prep.prepared, FailedRuntimes(services, prep.failed), provider(i.info.ident.serviceID),
                      onlineTime, now)
    {
      if i in prep.prepared {
        NotFailed(services, prep.failed, i.id);
      } else {
        var f :| f in prep.failed && f.instance == i;
        FailureKept(services, prep.failed, f);
      }
    }
  }

  /** After a run: either it runs and its provider's answer passed, or it failed for the stated reason. */
  ghost predicate Ran(
      i: StoredInstance, running: set<InstanceID>, errors: Runtimes, lookup: Lookup, onlineTime: int, now: int)
  {
    || (i.id in running && i.id !in errors && Passes(lookup, onlineTime, now))
    || (i.id !in running && i.id in errors && RefusedAs(errors[i.id].status, i, lookup, onlineTime, now))
  }

  lemma {:induction false} NotFailed(services: Services, failed: seq<Failure>, id: InstanceID)
    requires forall f :: f in failed ==> f.instance.id != id
    ensures id !in FailedRuntimes(services, failed)
  {
    if failed != [] {
      assert failed[|failed| - 1] in failed;
      NotFailed(services, failed[..|failed| - 1], id);
    }
  }

  /* ---- Offline timeouts ---- */

  /**
   * A service that is found and configured is refused for the timeout when it is cached exactly if at that time a
   * running instance with this configuration, that has not failed for the timeout yet, is swept.
   */
  lemma RefusedIffSwept(
      serviceID: string, lookup: Lookup, current: Runtimes, id: InstanceID, onlineTime: int, now: int)
    requires lookup.error == None && lookup.config.Some?
    requires id in current && current[id].service.Some? && current[id].service.value.config == lookup.config
    requires current[id].status.error != Some(ServiceUnusable(OfflineTimeout))
    ensures Entry(serviceID, lookup, onlineTime, now).error == Some(OfflineTimeout) <==>
            id in ExpiredIds(current, onlineTime, now)
  {
  }

  /** What a sweep makes of an instance: only one whose time is over, and that has not failed for it, fails. */
  ghost predicate SweptTo(before: Runtime, after: Runtime, onlineTime: int, now: int) {
    var failed := before.status.error == Some(ServiceUnusable(OfflineTimeout));
    if failed || before.service == None || before.service.value.config == None
       || InTime(before.service.value.config.value.offlineTTL, onlineTime, now)
    then after == before
    else after == before.(status := RunStatus(Failed, Some(ServiceUnusable(OfflineTimeout)), before.status.exitCode))
  }

  lemma SweepIsExact(core: Core, onlineTime: int, now: int, order: seq<InstanceID>)
    requires IsOrder(order, ExpiredIds(core.current, onlineTime, now))
    ensures forall id :: id in order ==> id in core.current
    ensures var t := Swept(core, order);
            && t.current.Keys == core.current.Keys && t.errors == core.errors
            && (forall id :: id in core.current ==> SweptTo(core.current[id], t.current[id], onlineTime, now))
            && (forall id :: id in core.current ==> (id in order <==> t.current[id] != core.current[id]))
            && t.sent == if order == [] then core.sent else core.sent + [UpdateStatuses(Clouds(order, t.current))]
  {
  }

  /** An instance is never swept twice, at whatever times. */
  lemma SweptOnce(core: Core, onlineTime: int, now: int, order: seq<InstanceID>, again: int, later: int)
    requires IsOrder(order, ExpiredIds(core.current, onlineTime, now))
    ensures forall id :: id in order ==> id in core.current
    ensures forall id :: id in order ==> id !in ExpiredIds(Swept(core, order).current, again, later)
    ensures ExpiredIds(Swept(core, order).current, onlineTime, now) == {}
  {
  }
}
