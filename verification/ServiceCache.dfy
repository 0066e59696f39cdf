/**
 * The cached services and the outdated list of the space allocator, which knows a service by its printed ID only:
 * when the list names exactly the stored cached services.
 */
module ServiceCache {
  import opened Sequences
  import opened ServiceIDs

  /** `damaged`: the image folder of the service is not there. */
  datatype Row = Row(service: Service, cached: bool, damaged: bool, timestamp: int)

  function CacheID(row: Row): string {
    Printed(row.service.id, row.service.version)
  }

  predicate Expired(row: Row, ttl: nat, now: int) {
    row.cached && row.timestamp + ttl < now
  }

  predicate Survives(row: Row, ttl: nat, now: int) {
    !row.damaged && !Expired(row, ttl, now)
  }

  function IsOther(service: Service): Row -> bool {
    (row: Row) => row.service != service
  }

  /** The table is keyed by ID and version. */
  ghost predicate DistinctServices(rows: seq<Row>) {
    forall i, j :: 0 <= i < j < |rows| ==> rows[i].service != rows[j].service
  }

  ghost predicate SomeCached(rows: seq<Row>, id: string) {
    exists row :: row in rows && row.cached && CacheID(row) == id
  }

  ghost predicate SomeExpired(rows: seq<Row>, id: string, ttl: nat, now: int) {
    exists row :: row in rows && Expired(row, ttl, now) && CacheID(row) == id
  }

  ghost predicate SomeSurvives(rows: seq<Row>, id: string, ttl: nat, now: int) {
    exists row :: row in rows && row.cached && Survives(row, ttl, now) && CacheID(row) == id
  }

  /** The outdated list names exactly the stored cached services. */
  ghost predicate Coupled(rows: seq<Row>, outdated: seq<string>) {
    forall id :: id in outdated <==> SomeCached(rows, id)
  }

  lemma SameService(rows: seq<Row>, a: Row, b: Row)
    requires DistinctServices(rows) && a in rows && b in rows && a.service == b.service
    ensures a == b
  {
    var i :| 0 <= i < |rows| && rows[i] == a;
    var j :| 0 <= j < |rows| && rows[j] == b;
  }

  lemma {:induction false} RemovedOnce(ids: seq<string>, id: string)
    requires Distinct(ids)
    ensures Distinct(RemoveFirst(ids, id))
    ensures forall other :: other in RemoveFirst(ids, id) <==> other in ids && other != id
  {
    if ids != [] {
      assert ids == [ids[0]] + ids[1..];
      assert Distinct(ids[1..]) && ids[0] !in ids[1..];
      RemovedOnce(ids[1..], id);
      if ids[0] != id {
        var rest := RemoveFirst(ids[1..], id);
        assert RemoveFirst(ids, id) == [ids[0]] + rest;
        assert ids[0] !in rest;
      }
    }
  }

  class ServiceManager {
    const serviceTTL: nat
    var rows: seq<Row>
    var outdated: seq<string>

    method AddOutdatedItem(id: string)
      requires Distinct(outdated)
      modifies this`outdated
      ensures Distinct(outdated) && outdated == if id in old(outdated) then old(outdated) else old(outdated) + [id]
    {
      if id !in outdated {
        outdated := outdated + [id];
      }
    }

    method RestoreOutdatedItem(id: string)
      requires Distinct(outdated)
      modifies this`outdated
      ensures Distinct(outdated) && forall other :: other in outdated <==> other in old(outdated) && other != id
    {
      RemovedOnce(outdated, id);
      outdated := RemoveFirst(outdated, id);
    }

    method RemoveService(service: Service)
      modifies this`rows
      ensures forall row :: row in rows <==> row in old(rows) && row.service != service
    {
      FilterElements(IsOther(service), rows);
      rows := Filter(IsOther(service), rows);
    }

    /* ---- Start-up ---- */

    method SetOutdatedServices(services: seq<Row>)
      requires outdated == []
      modifies this`outdated
      ensures Coupled(services, outdated) && Distinct(outdated)
    {
      for k := 0 to |services|
        invariant Coupled(services[..k], outdated) && Distinct(outdated)
      {
        assert services[..k + 1] == services[..k] + [services[k]];
        if services[k].cached {
          AddOutdatedItem(CacheID(services[k]));
        }
      }
      assert services[..|services|] == services;
    }

    method RemoveDamagedServiceFolders(services: seq<Row>)
      requires DistinctServices(services) && services == rows
      modifies this`rows
      ensures forall row :: row in rows <==> row in services && !row.damaged
    {
      for k := 0 to |services|
        invariant forall row :: row in rows <==> row in services && !(row in services[..k] && row.damaged)
      {
        assert services[..k + 1] == services[..k] + [services[k]];
        if services[k].damaged {
          RemoveService(services[k].service);
          forall row | row in services ensures row.service == services[k].service <==> row == services[k] {
            if row.service == services[k].service {
              SameService(services, row, services[k]);
            }
          }
        }
      }
      assert services[..|services|] == services;
    }

    /** Works from the list read before: an expired service goes even if it is removed already. */
    method RemoveOutdatedServices(services: seq<Row>, now: int)
      requires DistinctServices(services) && Distinct(outdated)
      requires forall row :: row in rows ==> row in services
      modifies this
      ensures forall row :: row in rows <==> row in old(rows) && !Expired(row, serviceTTL, now)
      ensures forall row :: row in rows <==> row in old(rows) && (!row.cached || now <= row.timestamp + serviceTTL)
      ensures forall id :: id in outdated <==> id in old(outdated) && !SomeExpired(services, id, serviceTTL, now)
    {
      for k := 0 to |services|
        invariant Distinct(outdated)
        invariant forall row :: row in rows <==>
                    row in old(rows) && !(row in services[..k] && Expired(row, serviceTTL, now))
        invariant forall id :: id in outdated <==>
                    id in old(outdated) && !SomeExpired(services[..k], id, serviceTTL, now)
      {
        assert services[..k + 1] == services[..k] + [services[k]];
        if Expired(services[k], serviceTTL, now) {
          RestoreOutdatedItem(CacheID(services[k]));
          RemoveService(services[k].service);
          forall row | row in services ensures row.service == services[k].service <==> row == services[k] {
            if row.service == services[k].service {
              SameService(services, row, services[k]);
            }
          }
        }
      }
      assert services[..|services|] == services;
    }

    /** From any table: what is neither damaged nor expired stays, and the list couples under this condition. */
    constructor (ttl: nat, stored: seq<Row>, now: int)
      requires DistinctServices(stored)
      ensures forall row :: row in rows <==> row in stored && Survives(row, ttl, now)
      ensures forall row :: row in rows <==>
                row in stored && !row.damaged && (!row.cached || now <= row.timestamp + ttl)
      ensures Coupled(rows, outdated) <==> EachLeavesOrStays(stored, ttl, now)
    {
      serviceTTL := ttl;
      rows, outdated := stored, [];
      new;
      SetOutdatedServices(stored);
      ghost var listed := outdated;
      RemoveDamagedServiceFolders(stored);
      RemoveOutdatedServices(stored, now);
      CoupledIff(stored, listed, rows, outdated, ttl, now);
    }

    /* ---- Desired services ---- */

    /** Writes the flag of a service and keeps its printed ID in or out of the list. */
    method SetServiceCached(service: Service, cached: bool)
      requires Distinct(outdated)
      modifies this
      ensures rows == WithFlag(old(rows), service, cached) && Distinct(outdated)
      ensures forall id :: id in outdated <==>
                if id == Printed(service.id, service.version) then cached else id in old(outdated)
    {
      rows := WithFlag(rows, service, cached);
      if cached {
        AddOutdatedItem(Printed(service.id, service.version));
      } else {
        RestoreOutdatedItem(Printed(service.id, service.version));
      }
    }

    /** Writes the flag of a stored service if it differs. */
    method FlagService(row: Row, cached: bool, ghost desired: seq<Service>)
      requires Distinct(outdated) && cached == (row.service !in desired)
      modifies this
      ensures Distinct(outdated)
      ensures rows == if row.cached == cached then old(rows) else WithFlag(old(rows), row.service, cached)
      ensures forall id :: id in outdated <==>
                !Restored(row, desired, id) && (Added(row, desired, id) || id in old(outdated))
    {
      if row.cached != cached {
        SetServiceCached(row.service, cached);
      }
    }

    /**
     * Every stored service is in use afterwards iff it is desired; what is left to install is the desired list
     * without one occurrence of each stored service.
     */
    method UpdateCachedServices(desiredServices: seq<Service>, storeServices: seq<Row>)
      returns (install: seq<Service>)
      requires storeServices == rows && DistinctServices(rows) && Distinct(outdated)
      modifies this
      ensures rows == Updated(storeServices, desiredServices) && Distinct(outdated)
      ensures multiset(install) == multiset(desiredServices) - multiset(ServicesOf(storeServices))
      ensures forall id :: id in outdated <==> Listed(storeServices, desiredServices, id in old(outdated), id)
      ensures old(Coupled(rows, outdated)) ==>
                (Coupled(rows, outdated) <==> RestoresAreClean(storeServices, desiredServices))
    {
      install := desiredServices;
      for k := 0 to |storeServices|
        invariant rows == Updated(storeServices[..k], desiredServices) + storeServices[k..] && Distinct(outdated)
        invariant multiset(install) == multiset(desiredServices) - multiset(ServicesOf(storeServices[..k]))
        invariant forall id :: id in outdated <==>
                    Listed(storeServices[..k], desiredServices, id in old(outdated), id)
      {
        var storeService := storeServices[k];
        UpdatedNext(storeServices, desiredServices, k);
        forall id: string
          ensures Listed(storeServices[..k + 1], desiredServices, id in old(outdated), id) ==
                  (!Restored(storeService, desiredServices, id) &&
                    (Added(storeService, desiredServices, id) ||
                     Listed(storeServices[..k], desiredServices, id in old(outdated), id)))
        {
          ListedNext(storeServices, desiredServices, k, id in old(outdated), id);
        }
        StillDesired(storeServices, desiredServices, k, install);
        hide Listed, Updated, WithFlag, DistinctServices, ServicesOf, Restored, Added, Distinct;
        install := MarkService(storeService, install, desiredServices);
      }
      assert storeServices[..|storeServices|] == storeServices && storeServices[|storeServices|..] == [];
      assert rows == Updated(storeServices, desiredServices);
      hide Listed, Updated, Coupled, RestoresAreClean, ServicesOf, DistinctServices;
      if Coupled(storeServices, old(outdated)) {
        UpdateCoupledIff(storeServices, desiredServices, old(outdated), outdated);
      }
    }

    /** One stored service: found among the desired ones it is in use and taken off the list, otherwise it is cached. */
    method MarkService(storeService: Row, desiredServices: seq<Service>, ghost desired: seq<Service>)
      returns (install: seq<Service>)
      requires Distinct(outdated)
      requires storeService.service in desiredServices <==> storeService.service in desired
      modifies this
      ensures multiset(install) == multiset(desiredServices) - multiset{storeService.service}
      ensures Distinct(outdated)
      ensures rows == if storeService.cached == (storeService.service !in desired) then old(rows)
                      else WithFlag(old(rows), storeService.service, storeService.service !in desired)
      ensures forall id :: id in outdated <==>
                !Restored(storeService, desired, id) && (Added(storeService, desired, id) || id in old(outdated))
    {
      hide Restored, Added, WithFlag;
      var i := FindService(desiredServices, storeService.service);
      if i < |desiredServices| {
        FlagService(storeService, false, desired);
        RemoveAtMultiset(desiredServices, i);
        install := RemoveAt(desiredServices, i);
      } else {
        FlagService(storeService, true, desired);
        install := desiredServices;
        assert storeService.service !in multiset(desiredServices);
      }
    }

    method FindService(services: seq<Service>, service: Service) returns (i: nat)
      ensures i <= |services| && (i < |services| ==> services[i] == service)
      ensures i == |services| ==> service !in services
    {
      for k := 0 to |services|
        invariant service !in services[..k]
      {
        if services[k] == service {
          return k;
        }
      }
      assert services[..|services|] == services;
      return |services|;
    }
  }

  /* ---- Start-up ---- */

  /**
   * Of the stored cached services with one printed ID, one has expired or one stays, and not both: services that are
   * lost for a missing folder alone leave their ID behind, and one that expires takes the ID of one that stays.
   */
  ghost predicate EachLeavesOrStays(stored: seq<Row>, ttl: nat, now: int) {
    forall id :: SomeCached(stored, id) ==> (SomeExpired(stored, id, ttl, now) <==> !SomeSurvives(stored, id, ttl, now))
  }

  /** The coupling after start-up, as an exact condition on the table before it. */
  lemma CoupledIff(
      stored: seq<Row>, listed: seq<string>, rows: seq<Row>, outdated: seq<string>, ttl: nat, now: int)
    requires Coupled(stored, listed)
    requires forall row :: row in rows <==> row in stored && Survives(row, ttl, now)
    requires forall id :: id in outdated <==> id in listed && !SomeExpired(stored, id, ttl, now)
    ensures Coupled(rows, outdated) <==> EachLeavesOrStays(stored, ttl, now)
  {
    forall id
      ensures SomeCached(rows, id) <==> SomeSurvives(stored, id, ttl, now)
      ensures SomeSurvives(stored, id, ttl, now) ==> SomeCached(stored, id)
    {
    }
    hide SomeCached, SomeExpired, SomeSurvives;
    if EachLeavesOrStays(stored, ttl, now) {
      assert Coupled(rows, outdated);
    } else {
      var id :| SomeCached(stored, id) && (SomeExpired(stored, id, ttl, now) <==> SomeSurvives(stored, id, ttl, now));
      assert id in listed && (id in outdated <==> !SomeCached(rows, id));
    }
  }

  /** When no two stored services share a printed ID: the list is right iff every damaged cached service has expired. */
  lemma CoupledIfDistinct(stored: seq<Row>, ttl: nat, now: int)
    requires forall a, b :: a in stored && b in stored && CacheID(a) == CacheID(b) ==> a == b
    ensures EachLeavesOrStays(stored, ttl, now) <==>
              forall row :: row in stored && row.cached && row.damaged ==> Expired(row, ttl, now)
  {
    forall row | row in stored && row.cached
      ensures SomeCached(stored, CacheID(row))
      ensures SomeExpired(stored, CacheID(row), ttl, now) <==> Expired(row, ttl, now)
      ensures SomeSurvives(stored, CacheID(row), ttl, now) <==> Survives(row, ttl, now)
    {
    }
    hide SomeExpired, SomeSurvives, CacheID;
    if forall row :: row in stored && row.cached && row.damaged ==> Expired(row, ttl, now) {
      forall id | SomeCached(stored, id)
        ensures SomeExpired(stored, id, ttl, now) <==> !SomeSurvives(stored, id, ttl, now)
      {
        var row :| row in stored && row.cached && CacheID(row) == id;
      }
    }
  }

  /** Two services whose IDs are printed alike, none damaged: the one that expires unlists the one that stays. */
  lemma SharedIDUncouples(ttl: nat, now: int) returns (stored: seq<Row>)
    ensures DistinctServices(stored) && (forall row :: row in stored ==> !row.damaged)
    ensures !EachLeavesOrStays(stored, ttl, now)
  {
    var leaves, stays := Alike(now - ttl - 1, now);
    stored := [leaves, stays];
    assert leaves in stored && stays in stored;
    assert Expired(leaves, ttl, now) && Survives(stays, ttl, now);
    hide CacheID, Expired, Survives;
    assert SomeCached(stored, CacheID(stays)) && SomeExpired(stored, CacheID(stays), ttl, now);
    assert SomeSurvives(stored, CacheID(stays), ttl, now);
  }

  /** Two cached services whose IDs are printed alike. */
  lemma Alike(first: int, second: int) returns (a: Row, b: Row)
    ensures a.cached && !a.damaged && a.timestamp == first && b.cached && !b.damaged && b.timestamp == second
    ensures a.service != b.service && CacheID(a) == CacheID(b)
  {
    UnderscoresCollide();
    hide Printed;
    a, b := Row(Service("a", "1_2"), true, false, first), Row(Service("a_1", "2"), true, false, second);
    assert |a.service.id| != |b.service.id|;
  }

  /* ---- Desired services ---- */

  function WithFlag(rows: seq<Row>, service: Service, cached: bool): (r: seq<Row>)
    ensures |r| == |rows|
  {
    seq(|rows|, i requires 0 <= i < |rows| =>
      if rows[i].service == service then rows[i].(cached := cached) else rows[i])
  }

  function ServicesOf(rows: seq<Row>): seq<Service> {
    seq(|rows|, i requires 0 <= i < |rows| => rows[i].service)
  }

  /** The table in which exactly the services that are not desired are cached. */
  function Updated(rows: seq<Row>, desired: seq<Service>): seq<Row> {
    seq(|rows|, i requires 0 <= i < |rows| => rows[i].(cached := rows[i].service !in desired))
  }

  predicate Restored(row: Row, desired: seq<Service>, id: string) {
    row.cached && row.service in desired && CacheID(row) == id
  }

  predicate Added(row: Row, desired: seq<Service>, id: string) {
    !row.cached && row.service !in desired && CacheID(row) == id
  }

  /** Whether an ID is on the list after these rows; `before`: whether it was. */
  function Listed(rows: seq<Row>, desired: seq<Service>, before: bool, id: string): bool {
    if rows == [] then before
    else if Restored(rows[|rows| - 1], desired, id) then false
    else Added(rows[|rows| - 1], desired, id) || Listed(rows[..|rows| - 1], desired, before, id)
  }

  lemma UpdatedNext(rows: seq<Row>, desired: seq<Service>, k: nat)
    requires k < |rows| && DistinctServices(rows)
    ensures var now, next := Updated(rows[..k], desired) + rows[k..], Updated(rows[..k + 1], desired) + rows[k + 1..];
            && WithFlag(now, rows[k].service, rows[k].service !in desired) == next
            && (rows[k].cached == (rows[k].service !in desired) ==> now == next)
  {
    var now, next := Updated(rows[..k], desired) + rows[k..], Updated(rows[..k + 1], desired) + rows[k + 1..];
    forall i | 0 <= i < |rows|
      ensures now[i] == if i < k then rows[i].(cached := rows[i].service !in desired) else rows[i]
      ensures next[i] == if i <= k then rows[i].(cached := rows[i].service !in desired) else rows[i]
      ensures rows[i].service == rows[k].service <==> i == k
    {
    }
    hide Updated;
    assert WithFlag(now, rows[k].service, rows[k].service !in desired) == next;
  }

  lemma ListedNext(rows: seq<Row>, desired: seq<Service>, k: nat, before: bool, id: string)
    requires k < |rows|
    ensures Listed(rows[..k + 1], desired, before, id) ==
            (!Restored(rows[k], desired, id) &&
              (Added(rows[k], desired, id) || Listed(rows[..k], desired, before, id)))
  {
    assert rows[..k + 1][..k] == rows[..k] && rows[..k + 1][k] == rows[k];
    hide Restored, Added;
  }

  /** A stored service is on the shrinking list iff it was on it at the beginning. */
  lemma StillDesired(rows: seq<Row>, desired: seq<Service>, k: nat, install: seq<Service>)
    requires k < |rows| && DistinctServices(rows)
    requires multiset(install) == multiset(desired) - multiset(ServicesOf(rows[..k]))
    ensures rows[k].service in install <==> rows[k].service in desired
    ensures multiset(desired) - multiset(ServicesOf(rows[..k + 1])) == multiset(install) - multiset{rows[k].service}
  {
    var service := rows[k].service;
    assert ServicesOf(rows[..k + 1]) == ServicesOf(rows[..k]) + [service];
    assert service !in ServicesOf(rows[..k]);
    assert service !in multiset(ServicesOf(rows[..k]));
    assert service in install <==> service in multiset(install);
    assert service in desired <==> service in multiset(desired);
  }

  /** The last change of an ID decides. */
  ghost predicate LastAdded(rows: seq<Row>, desired: seq<Service>, id: string, l: nat) {
    && l < |rows| && Added(rows[l], desired, id)
    && forall k :: l < k < |rows| ==> !Restored(rows[k], desired, id)
  }

  ghost predicate SomeRestored(rows: seq<Row>, desired: seq<Service>, id: string) {
    exists k :: 0 <= k < |rows| && Restored(rows[k], desired, id)
  }

  lemma {:induction false} ListedIff(rows: seq<Row>, desired: seq<Service>, before: bool, id: string)
    ensures Listed(rows, desired, before, id) <==>
            (exists l :: LastAdded(rows, desired, id, l)) || (before && !SomeRestored(rows, desired, id))
  {
    if rows != [] {
      hide CacheID;
      var n := |rows| - 1;
      ListedIff(rows[..n], desired, before, id);
      if l :| LastAdded(rows[..n], desired, id, l) {
        assert Restored(rows[n], desired, id) || LastAdded(rows, desired, id, l);
      }
      if l :| LastAdded(rows, desired, id, l) {
        assert l == n || LastAdded(rows[..n], desired, id, l);
      }
      if Added(rows[n], desired, id) {
        assert LastAdded(rows, desired, id, n);
      }
    }
  }

  lemma {:induction false} LastRestored(rows: seq<Row>, desired: seq<Service>, id: string) returns (k: nat)
    requires SomeRestored(rows, desired, id)
    ensures k < |rows| && Restored(rows[k], desired, id)
    ensures forall l :: k < l < |rows| ==> !Restored(rows[l], desired, id)
  {
    var n := |rows| - 1;
    if Restored(rows[n], desired, id) {
      k := n;
    } else {
      var j :| 0 <= j < |rows| && Restored(rows[j], desired, id);
      assert Restored(rows[..n][j], desired, id);
      k := LastRestored(rows[..n], desired, id);
    }
  }

  ghost predicate SomeUndesired(rows: seq<Row>, desired: seq<Service>, id: string) {
    exists row :: row in rows && row.service !in desired && CacheID(row) == id
  }

  ghost predicate AddedAfter(rows: seq<Row>, desired: seq<Service>, id: string, k: int) {
    exists l :: 0 <= k < l < |rows| && Added(rows[l], desired, id)
  }

  /** A restored ID that a service not desired shares is put on the list again later. */
  ghost predicate RestoresAreClean(rows: seq<Row>, desired: seq<Service>) {
    forall k :: 0 <= k < |rows| && Restored(rows[k], desired, CacheID(rows[k])) ==>
      (SomeUndesired(rows, desired, CacheID(rows[k])) ==> AddedAfter(rows, desired, CacheID(rows[k]), k))
  }

  ghost predicate CleanFor(rows: seq<Row>, desired: seq<Service>, id: string) {
    forall k :: 0 <= k < |rows| && Restored(rows[k], desired, id) ==> AddedAfter(rows, desired, id, k)
  }

  lemma ListedIffUndesired(rows: seq<Row>, desired: seq<Service>, id: string)
    ensures Listed(rows, desired, SomeCached(rows, id), id) == SomeUndesired(rows, desired, id) <==>
            (SomeUndesired(rows, desired, id) ==> CleanFor(rows, desired, id))
  {
    hide CacheID;
    ListedIff(rows, desired, SomeCached(rows, id), id);
    if SomeRestored(rows, desired, id) {
      var k := LastRestored(rows, desired, id);
      if l :| k < l < |rows| && Added(rows[l], desired, id) {
        assert LastAdded(rows, desired, id, l);
      }
      if l: nat :| LastAdded(rows, desired, id, l) {
        assert rows[l] in rows;
      }
    } else if row :| row in rows && row.service !in desired && CacheID(row) == id {
      var j :| 0 <= j < |rows| && rows[j] == row;
      assert row.cached || LastAdded(rows, desired, id, j);
    }
  }

  /**
   * The list is right after the desired services were marked exactly if no restored ID stays off the list that a
   * service not desired shares.
   */
  lemma UpdateCoupledIff(rows: seq<Row>, desired: seq<Service>, before: seq<string>, after: seq<string>)
    requires Coupled(rows, before)
    requires forall id :: id in after <==> Listed(rows, desired, id in before, id)
    ensures Coupled(Updated(rows, desired), after) <==> RestoresAreClean(rows, desired)
  {
    forall id
      ensures SomeCached(Updated(rows, desired), id) <==> SomeUndesired(rows, desired, id)
      ensures Listed(rows, desired, SomeCached(rows, id), id) == SomeUndesired(rows, desired, id) <==>
              (SomeUndesired(rows, desired, id) ==> CleanFor(rows, desired, id))
    {
      UpdatedCached(rows, desired, id);
      ListedIffUndesired(rows, desired, id);
    }
    hide SomeCached, SomeUndesired, Listed, Updated, CacheID, AddedAfter;
    if Coupled(Updated(rows, desired), after) {
      forall k | 0 <= k < |rows| && Restored(rows[k], desired, CacheID(rows[k]))
                 && SomeUndesired(rows, desired, CacheID(rows[k]))
        ensures AddedAfter(rows, desired, CacheID(rows[k]), k)
      {
        assert CleanFor(rows, desired, CacheID(rows[k]));
      }
    }
    if RestoresAreClean(rows, desired) {
      forall id | SomeUndesired(rows, desired, id)
        ensures CleanFor(rows, desired, id)
      {
      }
    }
  }

  /** With versions without underscore it always is. */
  lemma PlainVersionsAreClean(rows: seq<Row>, desired: seq<Service>)
    requires forall row :: row in rows ==> '_' !in row.service.version
    ensures RestoresAreClean(rows, desired)
  {
    forall k, row | 0 <= k < |rows| && row in rows && CacheID(row) == CacheID(rows[k])
      ensures row.service == rows[k].service
    {
      PrintedIsUnique(row.service, rows[k].service);
    }
    hide CacheID;
  }

  /** Two services whose IDs are printed alike, one of them desired: restoring it unlists the other. */
  lemma SharedIDUnlists() returns (rows: seq<Row>, desired: seq<Service>)
    ensures DistinctServices(rows) && !RestoresAreClean(rows, desired)
  {
    var a, b := Alike(0, 0);
    rows, desired := [a, b], [a.service];
    hide CacheID;
    assert rows[1] in rows && SomeUndesired(rows, desired, CacheID(rows[0]));
    assert Restored(rows[0], desired, CacheID(rows[0])) && !AddedAfter(rows, desired, CacheID(rows[0]), 0);
  }

  lemma UpdatedCached(rows: seq<Row>, desired: seq<Service>, id: string)
    ensures SomeCached(Updated(rows, desired), id) <==> SomeUndesired(rows, desired, id)
  {
    var now := Updated(rows, desired);
    if row :| row in now && row.cached && CacheID(row) == id {
      var k :| 0 <= k < |now| && now[k] == row;
      assert rows[k] in rows && CacheID(rows[k]) == id;
    }
    if row :| row in rows && row.service !in desired && CacheID(row) == id {
      var k :| 0 <= k < |rows| && rows[k] == row;
      assert now[k] in now && now[k].cached && CacheID(now[k]) == id;
    }
  }
}
