/** Matching the desired instances against the stored ones: IDs are kept or minted, leftovers removed. */
module StorageMatching {
  import opened Sequences
  import opened Instances
  import opened Preparation

  type Rows = map<InstanceID, InstanceInfo>

  /** `list` names every row once, in some order. */
  ghost predicate IsListing(list: seq<StoredInstance>, rows: Rows) {
    && DistinctIds(list)
    && (forall s :: s in list ==> s.id in rows && rows[s.id] == s.info)
    && (forall id :: id in rows ==> StoredInstance(rows[id], id) in list)
  }

  class Storage {
    var rows: Rows
    /** Number of calls that wrote to the database. */
    var writes: nat

    constructor (rows: Rows)
      ensures this.rows == rows && writes == 0
    {
      this.rows := rows;
      writes := 0;
    }

    method GetAllInstances() returns (list: seq<StoredInstance>)
      ensures IsListing(list, rows)
    {
      list := [];
      var remaining := rows.Keys;
      while remaining != {}
        invariant remaining <= rows.Keys
        invariant DistinctIds(list)
        invariant forall s :: s in list ==> s.id in rows && rows[s.id] == s.info && s.id !in remaining
        invariant forall id :: id in rows && id !in remaining ==> StoredInstance(rows[id], id) in list
        decreases remaining
      {
        var id :| id in remaining;
        list := list + [StoredInstance(rows[id], id)];
        remaining := remaining - {id};
      }
    }

    method AddInstance(instance: StoredInstance) returns (ok: bool)
      modifies this
      ensures writes == old(writes) + 1
      ensures ok <==> instance.id !in old(rows)
      ensures rows == if ok then old(rows)[instance.id := instance.info] else old(rows)
    {
      writes := writes + 1;
      ok := instance.id !in rows;
      if ok {
        rows := rows[instance.id := instance.info];
      }
    }

    method UpdateInstance(instance: StoredInstance) returns (ok: bool)
      modifies this
      ensures writes == old(writes) + 1
      ensures ok <==> instance.id in old(rows)
      ensures rows == if ok then old(rows)[instance.id := instance.info] else old(rows)
    {
      writes := writes + 1;
      ok := instance.id in rows;
      if ok {
        rows := rows[instance.id := instance.info];
      }
    }

    method RemoveInstance(id: InstanceID)
      modifies this
      ensures writes == old(writes) + 1
      ensures rows == old(rows) - {id}
    {
      writes := writes + 1;
      rows := rows - {id};
    }
  }

  /** Progress of the matching: results so far, stored instances not matched yet, the table and the writes to it. */
  datatype Matching = Matching(
    running: seq<StoredInstance>, unmatched: seq<StoredInstance>, rows: Rows, writes: nat)

  predicate FirstWithIdent(list: seq<StoredInstance>, ident: InstanceIdent, i: nat) {
    && i < |list|
    && list[i].info.ident == ident
    && forall j :: 0 <= j < i ==> list[j].info.ident != ident
  }

  function FindIdent(list: seq<StoredInstance>, ident: InstanceIdent): (found: Option<nat>)
    ensures found.Some? ==> FirstWithIdent(list, ident, found.value)
    ensures found.None? ==> forall s :: s in list ==> s.info.ident != ident
  {
    if list == [] then None
    else if list[0].info.ident == ident then Some(0)
    else match FindIdent(list[1..], ident)
      case None => None
      case Some(i) => Some(i + 1)
  }

  function MatchNext(m: Matching, desired: InstanceInfo, uuid: InstanceID): Matching {
    match FindIdent(m.unmatched, desired.ident)
    case Some(i) =>
      var stored := m.unmatched[i];
      if InfoEqual(stored.info, desired) then
        m.(running := m.running + [stored], unmatched := RemoveAt(m.unmatched, i))
      else
        m.(running := m.running + [StoredInstance(desired, stored.id)], unmatched := RemoveAt(m.unmatched, i),
           rows := m.rows[stored.id := desired], writes := m.writes + 1)
    case None =>
      m.(running := m.running + [StoredInstance(desired, uuid)],
         rows := m.rows[uuid := desired], writes := m.writes + 1)
  }

  function MatchDesired(
      list: seq<StoredInstance>, rows: Rows, desired: seq<InstanceInfo>, uuids: seq<InstanceID>): Matching
    requires |desired| <= |uuids|
  {
    if desired == [] then Matching([], list, rows, 0)
    else
      var n := |desired| - 1;
      MatchNext(MatchDesired(list, rows, desired[..n], uuids), desired[n], uuids[n])
  }

  /** The table after the leftovers are removed as well. */
  function RowsAfter(m: Matching): Rows {
    m.rows - Elements(Ids(m.unmatched))
  }

  function WritesAfter(m: Matching): nat {
    m.writes + |m.unmatched|
  }

  /** New identifiers are pairwise different and not in use. */
  ghost predicate Fresh(uuids: seq<InstanceID>, rows: Rows) {
    Distinct(uuids) && forall id :: id in uuids ==> id !in rows
  }

  method FindStored(list: seq<StoredInstance>, ident: InstanceIdent) returns (found: Option<nat>)
    ensures found == FindIdent(list, ident)
  {
    for i := 0 to |list|
      invariant forall j :: 0 <= j < i ==> list[j].info.ident != ident
    {
      if list[i].info.ident == ident {
        return Some(i);
      }
    }
    return None;
  }

  method GetRunningInstances(
      storage: Storage, desired: seq<InstanceInfo>, uuids: seq<InstanceID>)
    returns (running: seq<StoredInstance>, ghost list: seq<StoredInstance>)
    requires |desired| <= |uuids| && Fresh(uuids, storage.rows)
    modifies storage
    ensures IsListing(list, old(storage.rows))
    ensures var m := MatchDesired(list, old(storage.rows), desired, uuids);
            && running == m.running
            && storage.rows == RowsAfter(m)
            && storage.writes == old(storage.writes) + WritesAfter(m)
  {
    ghost var before, writes := storage.rows, storage.writes;
    running := [];
    var unmatched := storage.GetAllInstances();
    list := unmatched;
    for k := 0 to |desired|
      invariant storage.writes >= writes
      invariant MatchDesired(list, before, desired[..k], uuids) ==
                Matching(running, unmatched, storage.rows, storage.writes - writes)
    {
      ghost var m := MatchDesired(list, before, desired[..k], uuids);
      assert MatchDesired(list, before, desired[..k + 1], uuids) == MatchNext(m, desired[k], uuids[k]) by {
        assert desired[..k + 1][..k] == desired[..k];
      }
      assert uuids[k] !in storage.rows && forall u :: u in unmatched ==> u.id in storage.rows by {
        MatchingPartition(list, before, desired[..k], uuids);
      }
      var found := FindStored(unmatched, desired[k].ident);
      if found.Some? {
        var stored := unmatched[found.value];
        unmatched := RemoveAt(unmatched, found.value);
        var equal := InstanceInfoEqual(stored.info, desired[k]);
        if !equal {
          stored := StoredInstance(desired[k], stored.id);
          var ok := storage.UpdateInstance(stored);
        }
        running := running + [stored];
      } else {
        var instance := StoredInstance(desired[k], uuids[k]);
        var ok := storage.AddInstance(instance);
        running := running + [instance];
      }
    }
    assert desired[..|desired|] == desired;
    RemoveOldInstances(storage, unmatched);
  }

  method RemoveOldInstances(storage: Storage, unmatched: seq<StoredInstance>)
    modifies storage
    ensures storage.rows == old(storage.rows) - Elements(Ids(unmatched))
    ensures storage.writes == old(storage.writes) + |unmatched|
  {
    for i := 0 to |unmatched|
      invariant storage.rows == old(storage.rows) - Elements(Ids(unmatched[..i]))
      invariant storage.writes == old(storage.writes) + i
    {
      assert Ids(unmatched[..i + 1]) == Ids(unmatched[..i]) + [unmatched[i].id];
      storage.RemoveInstance(unmatched[i].id);
    }
    assert unmatched[..|unmatched|] == unmatched;
  }

  /** The running and the unmatched instances are exactly the rows of the table, each once. */
  ghost predicate Partitioned(m: Matching) {
    && DistinctIds(m.running) && DistinctIds(m.unmatched)
    && (forall r, u :: r in m.running && u in m.unmatched ==> r.id != u.id)
    && (forall s :: s in m.running || s in m.unmatched ==> s.id in m.rows && m.rows[s.id] == s.info)
    && (forall id :: id in m.rows ==> StoredInstance(m.rows[id], id) in m.running
                                       || StoredInstance(m.rows[id], id) in m.unmatched)
  }

  lemma NothingMatched(list: seq<StoredInstance>, rows: Rows)
    requires IsListing(list, rows)
    ensures Partitioned(Matching([], list, rows, 0))
  {
  }

  lemma {:induction false} MatchingPartition(
      list: seq<StoredInstance>, rows: Rows, desired: seq<InstanceInfo>, uuids: seq<InstanceID>)
    requires |desired| <= |uuids| && Fresh(uuids, rows) && IsListing(list, rows)
    ensures var m := MatchDesired(list, rows, desired, uuids);
            && Partitioned(m)
            && (forall id :: id in m.rows ==> id in rows || id in uuids[..|desired|])
            && (forall u :: u in m.unmatched ==> u in list)
    ensures |desired| < |uuids| ==> uuids[|desired|] !in MatchDesired(list, rows, desired, uuids).rows
    decreases |desired|
  {
    hide MatchNext, InfoEqual, Partitioned, IsListing;
    if desired == [] {
      NothingMatched(list, rows);
    } else {
      var n := |desired| - 1;
      MatchingPartition(list, rows, desired[..n], uuids);
      MatchNextPartitioned(MatchDesired(list, rows, desired[..n], uuids), desired[n], uuids[n]);
      assert uuids[..n + 1] == uuids[..n] + [uuids[n]];
    }
  }

  lemma MatchNextPartitioned(m: Matching, desired: InstanceInfo, uuid: InstanceID)
    requires Partitioned(m) && uuid !in m.rows
    ensures Partitioned(MatchNext(m, desired, uuid))
    ensures MatchNext(m, desired, uuid).rows.Keys <= m.rows.Keys + {uuid}
    ensures forall u :: u in MatchNext(m, desired, uuid).unmatched ==> u in m.unmatched
  {
    var found := FindIdent(m.unmatched, desired.ident);
    if found.Some? {
      var stored := m.unmatched[found.value];
      MoveKeepsPartition(m, found.value, if InfoEqual(stored.info, desired) then stored.info else desired);
      assert InfoEqual(stored.info, desired) ==> m.rows[stored.id := stored.info] == m.rows;
    } else {
      assert (m.running + [StoredInstance(desired, uuid)])[|m.running|].id == uuid;
    }
  }

  lemma AppendDistinctIds(a: seq<StoredInstance>, x: StoredInstance)
    requires DistinctIds(a) && forall r :: r in a ==> r.id != x.id
    ensures DistinctIds(a + [x])
    ensures forall r :: r in a + [x] <==> r in a || r == x
  {
  }

  /** Removing an instance leaves exactly those with other IDs. */
  lemma RemoveAtIds(list: seq<StoredInstance>, i: nat)
    requires DistinctIds(list) && i < |list|
    ensures DistinctIds(RemoveAt(list, i))
    ensures forall u :: u in RemoveAt(list, i) <==> u in list && u.id != list[i].id
  {
    assert Distinct(list);
    RemoveAtElements(list, i);
    forall u | u in list ensures u.id == list[i].id <==> u == list[i] {
      var k :| 0 <= k < |list| && list[k] == u;
    }
  }

  /** Moving one unmatched instance to the results, perhaps with new information. */
  lemma MoveKeepsPartition(m: Matching, i: nat, info: InstanceInfo)
    requires Partitioned(m) && i < |m.unmatched|
    ensures var stored := m.unmatched[i];
            Partitioned(m.(running := m.running + [StoredInstance(info, stored.id)],
                           unmatched := RemoveAt(m.unmatched, i), rows := m.rows[stored.id := info]))
    ensures m.unmatched[i].id in m.rows
    ensures forall u :: u in RemoveAt(m.unmatched, i) ==> u in m.unmatched
  {
    var stored := m.unmatched[i];
    assert stored in m.unmatched;
    RemoveAtIds(m.unmatched, i);
    AppendDistinctIds(m.running, StoredInstance(info, stored.id));
    hide RemoveAt, DistinctIds;
    var rows := m.rows[stored.id := info];
    forall id | id in rows && id != stored.id
      ensures StoredInstance(rows[id], id) in m.running || StoredInstance(rows[id], id) in RemoveAt(m.unmatched, i)
    {
      assert StoredInstance(m.rows[id], id) in m.running || StoredInstance(m.rows[id], id) in m.unmatched;
    }
  }

  lemma MatchNextAnswers(m: Matching, desired: InstanceInfo, uuid: InstanceID)
    ensures var next := MatchNext(m, desired, uuid);
            && |next.running| == |m.running| + 1
            && next.running[..|m.running|] == m.running
            && InfoEqual(next.running[|m.running|].info, desired)
            && (forall u :: u in next.unmatched ==> u in m.unmatched)
            && (FindIdent(m.unmatched, desired.ident).Some? ==>
                  next.running[|m.running|].id == m.unmatched[FindIdent(m.unmatched, desired.ident).value].id)
            && (forall u :: u in m.unmatched && u !in next.unmatched ==> u.id == next.running[|m.running|].id)
  {
    assert InfoEqual(desired, desired);
    hide InfoEqual;
    var next, found := MatchNext(m, desired, uuid), FindIdent(m.unmatched, desired.ident);
    if found.Some? {
      assert next.unmatched == RemoveAt(m.unmatched, found.value);
      forall u | u in m.unmatched && u !in next.unmatched
        ensures u.id == next.running[|m.running|].id
      {
        RemovedAt(m.unmatched, found.value, u);
      }
    }
  }

  /** The i-th result answers the i-th desired instance. */
  ghost predicate Answers(running: seq<StoredInstance>, desired: seq<InstanceInfo>) {
    && |running| == |desired|
    && forall i :: 0 <= i < |desired| ==> InfoEqual(running[i].info, desired[i])
  }

  lemma AnswersNext(running: seq<StoredInstance>, desired: seq<InstanceInfo>, r: StoredInstance, d: InstanceInfo)
    requires Answers(running, desired) && InfoEqual(r.info, d)
    ensures Answers(running + [r], desired + [d])
  {
    hide InfoEqual;
  }

  lemma {:induction false} MatchingAnswers(
      list: seq<StoredInstance>, rows: Rows, desired: seq<InstanceInfo>, uuids: seq<InstanceID>)
    requires |desired| <= |uuids|
    ensures var m := MatchDesired(list, rows, desired, uuids);
            Answers(m.running, desired) && (forall u :: u in m.unmatched ==> u in list)
    decreases |desired|
  {
    if desired != [] {
      hide MatchNext, InfoEqual, FindIdent, Answers;
      var n := |desired| - 1;
      var before, m := MatchDesired(list, rows, desired[..n], uuids), MatchDesired(list, rows, desired, uuids);
      MatchingAnswers(list, rows, desired[..n], uuids);
      MatchNextAnswers(before, desired[n], uuids[n]);
      assert m.running == before.running + [m.running[|before.running|]];
      assert desired == desired[..n] + [desired[n]];
      AnswersNext(before.running, desired[..n], m.running[|before.running|], desired[n]);
    }
  }

  /* ---- Which desired instances keep a stored ID ---- */

  function HasIdent(ident: InstanceIdent): StoredInstance -> bool {
    (s: StoredInstance) => s.info.ident == ident
  }

  /** How often an ident is desired. */
  function Asked(desired: seq<InstanceInfo>, ident: InstanceIdent): nat {
    if desired == [] then 0
    else Asked(desired[..|desired| - 1], ident) + (if desired[|desired| - 1].ident == ident then 1 else 0)
  }

  function Left(list: seq<StoredInstance>, ident: InstanceIdent): nat {
    |Filter(HasIdent(ident), list)|
  }

  ghost function RowsWith(rows: Rows, ident: InstanceIdent): set<InstanceID> {
    set id | id in rows && rows[id].ident == ident
  }

  /** Result `i` keeps the ID of a row exactly while rows of its ident are left, and then of a row of its ident. */
  ghost predicate KeepsStoredID(m: Matching, rows: Rows, list: seq<StoredInstance>, desired: seq<InstanceInfo>, i: nat)
    requires i < |desired| && i < |m.running|
  {
    && (m.running[i].id in rows <==> Asked(desired[..i], desired[i].ident) < Left(list, desired[i].ident))
    && (m.running[i].id in rows ==> rows[m.running[i].id].ident == desired[i].ident)
  }

  lemma LeftSome(list: seq<StoredInstance>, ident: InstanceIdent)
    ensures Left(list, ident) > 0 <==> FindIdent(list, ident).Some?
  {
    FilterElements(HasIdent(ident), list);
    if FindIdent(list, ident).Some? {
      assert list[FindIdent(list, ident).value] in Filter(HasIdent(ident), list);
    } else {
      FilterNone(HasIdent(ident), list);
    }
  }

  /** One desired instance uses up one stored instance of its ident, if one is left, and of no other ident. */
  lemma LeftNext(m: Matching, desired: InstanceInfo, uuid: InstanceID, ident: InstanceIdent)
    ensures Left(MatchNext(m, desired, uuid).unmatched, ident) ==
            Left(m.unmatched, ident) - (if desired.ident == ident && Left(m.unmatched, ident) > 0 then 1 else 0)
  {
    LeftSome(m.unmatched, desired.ident);
    var found := FindIdent(m.unmatched, desired.ident);
    if found.Some? {
      FilterRemoveAt(HasIdent(ident), m.unmatched, found.value);
    }
    hide Filter, InfoEqual;
  }

  lemma {:induction false} LeftOver(
      list: seq<StoredInstance>, rows: Rows, desired: seq<InstanceInfo>, uuids: seq<InstanceID>, ident: InstanceIdent)
    requires |desired| <= |uuids|
    ensures Left(MatchDesired(list, rows, desired, uuids).unmatched, ident) ==
            if Asked(desired, ident) <= Left(list, ident) then Left(list, ident) - Asked(desired, ident) else 0
    decreases |desired|
  {
    hide MatchNext, Left;
    if desired != [] {
      var n := |desired| - 1;
      LeftOver(list, rows, desired[..n], uuids, ident);
      LeftNext(MatchDesired(list, rows, desired[..n], uuids), desired[n], uuids[n], ident);
    }
  }

  lemma NextKeeps(m: Matching, rows: Rows, list: seq<StoredInstance>, desired: InstanceInfo, uuid: InstanceID)
    requires IsListing(list, rows) && uuid !in rows && forall u :: u in m.unmatched ==> u in list
    ensures var next := MatchNext(m, desired, uuid);
            && |next.running| == |m.running| + 1
            && (next.running[|m.running|].id in rows <==> Left(m.unmatched, desired.ident) > 0)
            && (next.running[|m.running|].id in rows ==> rows[next.running[|m.running|].id].ident == desired.ident)
  {
    LeftSome(m.unmatched, desired.ident);
    var found := FindIdent(m.unmatched, desired.ident);
    if found.Some? {
      assert m.unmatched[found.value] in list;
    }
    hide InfoEqual, Left;
  }

  lemma {:induction false} StoredIDsKept(
      list: seq<StoredInstance>, rows: Rows, desired: seq<InstanceInfo>, uuids: seq<InstanceID>, i: nat)
    requires |desired| <= |uuids| && Fresh(uuids, rows) && IsListing(list, rows) && i < |desired|
    ensures var m := MatchDesired(list, rows, desired, uuids);
            |m.running| == |desired| && KeepsStoredID(m, rows, list, desired, i)
    decreases |desired|
  {
    hide MatchNext, InfoEqual, Left, Asked, IsListing;
    var n := |desired| - 1;
    var before := MatchDesired(list, rows, desired[..n], uuids);
    MatchingAnswers(list, rows, desired[..n], uuids);
    MatchNextAnswers(before, desired[n], uuids[n]);
    if i < n {
      StoredIDsKept(list, rows, desired[..n], uuids, i);
      assert desired[..n][..i] == desired[..i];
      assert MatchNext(before, desired[n], uuids[n]).running[i] == before.running[i];
    } else {
      NextKeeps(before, rows, list, desired[n], uuids[n]);
      LeftOver(list, rows, desired[..n], uuids, desired[n].ident);
    }
  }

  lemma IdsCount(some: seq<StoredInstance>)
    requires DistinctIds(some)
    ensures |Elements(Ids(some))| == |some|
  {
    DistinctCardinality(Ids(some));
  }

  /** The number of stored instances of an ident is the number of its rows. */
  lemma LeftIsRows(list: seq<StoredInstance>, rows: Rows, ident: InstanceIdent)
    requires IsListing(list, rows)
    ensures Left(list, ident) == |RowsWith(rows, ident)|
  {
    var some := Filter(HasIdent(ident), list);
    FilterElements(HasIdent(ident), list);
    FilterDistinctIds(HasIdent(ident), list);
    IdsCount(some);
    hide Filter, DistinctIds;
    forall id | id in RowsWith(rows, ident) ensures id in Ids(some) {
      var k :| 0 <= k < |some| && some[k] == StoredInstance(rows[id], id);
      assert Ids(some)[k] == id;
    }
    forall k | 0 <= k < |some| ensures Ids(some)[k] in RowsWith(rows, ident) {
      assert some[k] in some;
    }
    assert Elements(Ids(some)) == RowsWith(rows, ident);
  }

  /** The first desired instance of an ident that one row has keeps the ID of this row. */
  lemma OwnIDKept(
      list: seq<StoredInstance>, rows: Rows, desired: seq<InstanceInfo>, uuids: seq<InstanceID>, i: nat, id: InstanceID)
    requires |desired| <= |uuids| && Fresh(uuids, rows) && IsListing(list, rows) && i < |desired|
    requires RowsWith(rows, desired[i].ident) == {id}
    requires forall j :: 0 <= j < i ==> desired[j].ident != desired[i].ident
    ensures var m := MatchDesired(list, rows, desired, uuids);
            |m.running| == |desired| && m.running[i].id == id
  {
    StoredIDsKept(list, rows, desired, uuids, i);
    LeftIsRows(list, rows, desired[i].ident);
    NotAsked(desired[..i], desired[i].ident);
    var m := MatchDesired(list, rows, desired, uuids);
    assert m.running[i].id in RowsWith(rows, desired[i].ident);
  }

  lemma {:induction false} NotAsked(desired: seq<InstanceInfo>, ident: InstanceIdent)
    requires forall j :: 0 <= j < |desired| ==> desired[j].ident != ident
    ensures Asked(desired, ident) == 0
  {
    if desired != [] {
      NotAsked(desired[..|desired| - 1], ident);
    }
  }

  /**
   * With successful storage calls the table ends up as exactly the returned list, whose i-th entry has the i-th
   * desired ident and equivalent information. IDs are distinct. The i-th result keeps the ID of a row exactly while
   * fewer instances of its ident were desired before it than there are rows of this ident, and the row is then one of
   * its own ident. A row is removed only if every desired instance of its ident got a stored ID. This holds for
   * repeated idents as well.
   */
  lemma StorageMatched(
      list: seq<StoredInstance>, rows: Rows, desired: seq<InstanceInfo>, uuids: seq<InstanceID>)
    requires |desired| <= |uuids| && Fresh(uuids, rows) && IsListing(list, rows)
    ensures var m := MatchDesired(list, rows, desired, uuids);
            && IsListing(m.running, RowsAfter(m))
            && |m.running| == |desired|
            && (forall i :: 0 <= i < |desired| ==> InfoEqual(m.running[i].info, desired[i]))
            && (forall i :: 0 <= i < |desired| ==>
                  && (m.running[i].id in rows <==>
                      Asked(desired[..i], desired[i].ident) < |RowsWith(rows, desired[i].ident)|)
                  && (m.running[i].id in rows ==> rows[m.running[i].id].ident == desired[i].ident))
            && (forall id, i :: id in rows && id !in RowsAfter(m) && 0 <= i < |desired|
                                && rows[id].ident == desired[i].ident ==>
                  m.running[i].id in rows && rows[m.running[i].id].ident == desired[i].ident)
  {
    var m := MatchDesired(list, rows, desired, uuids);
    hide MatchDesired, InfoEqual, IsListing, RowsAfter, Fresh, Asked, RowsWith, Left;
    MatchingAnswers(list, rows, desired, uuids);
    RunningIsListed(list, rows, desired, uuids);
    forall i | 0 <= i < |desired|
      ensures KeepsStoredID(MatchDesired(list, rows, desired, uuids), rows, list, desired, i)
      ensures Left(list, desired[i].ident) == |RowsWith(rows, desired[i].ident)|
    {
      StoredIDsKept(list, rows, desired, uuids, i);
      LeftIsRows(list, rows, desired[i].ident);
    }
    forall id, i | id in rows && id !in RowsAfter(m) && 0 <= i < |desired| && rows[id].ident == desired[i].ident
      ensures m.running[i].id in rows && rows[m.running[i].id].ident == desired[i].ident
    {
      RemovedLast(list, rows, desired, uuids, id, i);
    }
  }

  /** As many results keep a stored ID of an ident as there are rows or desired instances of it, whichever is fewer. */
  lemma {:induction false} KeptCount(
      list: seq<StoredInstance>, rows: Rows, desired: seq<InstanceInfo>, uuids: seq<InstanceID>, ident: InstanceIdent)
    requires |desired| <= |uuids| && Fresh(uuids, rows) && IsListing(list, rows)
    ensures var asked, stored := Asked(desired, ident), |RowsWith(rows, ident)|;
            |Filter(KeepsRow(rows, ident), MatchDesired(list, rows, desired, uuids).running)| ==
            if asked <= stored then asked else stored
    decreases |desired|
  {
    hide MatchNext, InfoEqual, IsListing, RowsWith;
    if desired != [] {
      var n := |desired| - 1;
      var m := MatchDesired(list, rows, desired, uuids);
      KeptCount(list, rows, desired[..n], uuids, ident);
      MatchingAnswers(list, rows, desired[..n], uuids);
      MatchNextAnswers(MatchDesired(list, rows, desired[..n], uuids), desired[n], uuids[n]);
      StoredIDsKept(list, rows, desired, uuids, n);
      LeftIsRows(list, rows, desired[n].ident);
      assert InfoEqual(m.running[n].info, desired[n]);
      AnswerIdent(m.running[n].info, desired[n]);
      hide MatchDesired, Left;
    }
  }

  function KeepsRow(rows: Rows, ident: InstanceIdent): StoredInstance -> bool {
    (s: StoredInstance) => s.id in rows && s.info.ident == ident
  }

  lemma AnswerIdent(a: InstanceInfo, b: InstanceInfo)
    requires InfoEqual(a, b)
    ensures a.ident == b.ident
  {
  }

  lemma RunningIsListed(list: seq<StoredInstance>, rows: Rows, desired: seq<InstanceInfo>, uuids: seq<InstanceID>)
    requires |desired| <= |uuids| && Fresh(uuids, rows) && IsListing(list, rows)
    ensures var m := MatchDesired(list, rows, desired, uuids);
            IsListing(m.running, RowsAfter(m))
  {
    MatchingPartition(list, rows, desired, uuids);
    PartitionedListing(MatchDesired(list, rows, desired, uuids));
  }

  lemma PartitionedListing(m: Matching)
    requires Partitioned(m)
    ensures IsListing(m.running, RowsAfter(m))
  {
    var after, ids := RowsAfter(m), Ids(m.unmatched);
    forall r | r in m.running
      ensures r.id in after && after[r.id] == r.info
    {
      forall k | 0 <= k < |ids|
        ensures ids[k] != r.id
      {
        assert m.unmatched[k] in m.unmatched;
      }
    }
    forall u | u in m.unmatched
      ensures u.id in ids
    {
      var k :| 0 <= k < |m.unmatched| && m.unmatched[k] == u;
      assert ids[k] == u.id;
    }
  }

  lemma {:induction false} AskedBefore(desired: seq<InstanceInfo>, i: nat, ident: InstanceIdent)
    requires i <= |desired|
    ensures Asked(desired[..i], ident) <= Asked(desired, ident)
  {
    if i == |desired| {
      assert desired[..i] == desired;
    } else {
      AskedBefore(desired[..|desired| - 1], i, ident);
      assert desired[..|desired| - 1][..i] == desired[..i];
    }
  }

  lemma RemovedLast(
      list: seq<StoredInstance>, rows: Rows, desired: seq<InstanceInfo>, uuids: seq<InstanceID>, id: InstanceID, i: nat)
    requires |desired| <= |uuids| && Fresh(uuids, rows) && IsListing(list, rows) && i < |desired|
    requires id in rows && id !in RowsAfter(MatchDesired(list, rows, desired, uuids))
    requires rows[id].ident == desired[i].ident
    ensures var m := MatchDesired(list, rows, desired, uuids);
            |m.running| == |desired| && m.running[i].id in rows && rows[m.running[i].id].ident == desired[i].ident
  {
    var m := MatchDesired(list, rows, desired, uuids);
    RunningIsListed(list, rows, desired, uuids);
    KeptRows(list, rows, desired, uuids, id);
    StoredIDsKept(list, rows, desired, uuids, i);
    LeftOver(list, rows, desired, uuids, desired[i].ident);
    AskedBefore(desired, i, desired[i].ident);
    hide MatchDesired, Asked;
    var u := StoredInstance(rows[id], id);
    assert u in m.unmatched;
    FilterElements(HasIdent(desired[i].ident), m.unmatched);
    assert u in Filter(HasIdent(desired[i].ident), m.unmatched);
  }

  /** Row `id` is answered, or its instance is still unmatched. */
  ghost predicate Accounted(m: Matching, rows: Rows, id: InstanceID)
    requires id in rows
  {
    (exists r :: r in m.running && r.id == id) || StoredInstance(rows[id], id) in m.unmatched
  }

  lemma {:induction false} KeptRows(
      list: seq<StoredInstance>, rows: Rows, desired: seq<InstanceInfo>, uuids: seq<InstanceID>, id: InstanceID)
    requires |desired| <= |uuids| && IsListing(list, rows) && id in rows
    ensures Accounted(MatchDesired(list, rows, desired, uuids), rows, id)
    decreases |desired|
  {
    if desired != [] {
      var n := |desired| - 1;
      KeptRows(list, rows, desired[..n], uuids, id);
      KeptNext(MatchDesired(list, rows, desired[..n], uuids), desired[n], uuids[n], rows, id);
    }
  }

  lemma KeptNext(m: Matching, desired: InstanceInfo, uuid: InstanceID, rows: Rows, id: InstanceID)
    requires id in rows && Accounted(m, rows, id)
    ensures Accounted(MatchNext(m, desired, uuid), rows, id)
  {
    var next := MatchNext(m, desired, uuid);
    var s := StoredInstance(rows[id], id);
    MatchNextAnswers(m, desired, uuid);
    hide InfoEqual, FindIdent, MatchNext;
    if exists r :: r in m.running && r.id == id {
      var r :| r in m.running && r.id == id;
      assert r in next.running[..|m.running|];
    } else if s !in next.unmatched {
      assert next.running[|m.running|] in next.running;
    }
  }

  /* ---- Matching the same request again ---- */

  /** No ident is desired twice. */
  ghost predicate DistinctDesired(desired: seq<InstanceInfo>) {
    forall i, j :: 0 <= i < j < |desired| ==> desired[i].ident != desired[j].ident
  }

  /** Of no ident more is desired than stored, and what is desired equals every row of its ident. */
  ghost predicate Served(rows: Rows, desired: seq<InstanceInfo>) {
    && (forall d :: d in desired ==> Asked(desired, d.ident) <= |RowsWith(rows, d.ident)|)
    && (forall d, id :: d in desired && id in RowsWith(rows, d.ident) ==> InfoEqual(rows[id], d))
  }

  /** What is stored is what is desired, and nothing else. */
  ghost predicate Settled(rows: Rows, desired: seq<InstanceInfo>) {
    Served(rows, desired) && |desired| == |rows|
  }

  /** Nothing was written so far, so that the results are stored instances. */
  ghost predicate Untouched(list: seq<StoredInstance>, rows: Rows, desired: seq<InstanceInfo>, m: Matching) {
    && m.rows == rows && m.writes == 0
    && |m.running| == |desired|
    && multiset(m.running + m.unmatched) == multiset(list)
  }

  /** The next desired instance meets a stored one that equals it. */
  ghost predicate Meets(m: Matching, desired: InstanceInfo) {
    var found := FindIdent(m.unmatched, desired.ident);
    found.Some? && InfoEqual(m.unmatched[found.value].info, desired)
  }

  lemma UntouchedNext(
      list: seq<StoredInstance>, rows: Rows, desired: seq<InstanceInfo>, d: InstanceInfo, m: Matching, uuid: InstanceID)
    ensures MatchNext(m, d, uuid).writes == 0 <==> m.writes == 0 && Meets(m, d)
    ensures Untouched(list, rows, desired, m) && Meets(m, d) ==>
              Untouched(list, rows, desired + [d], MatchNext(m, d, uuid))
  {
    hide InfoEqual;
    if Meets(m, d) {
      MovedMultiset(m.running, m.unmatched, FindIdent(m.unmatched, d.ident).value);
    }
  }

  lemma MovedMultiset<T>(a: seq<T>, b: seq<T>, i: nat)
    requires i < |b|
    ensures multiset(a + [b[i]] + RemoveAt(b, i)) == multiset(a + b)
  {
    assert b == b[..i] + [b[i]] + b[i + 1..];
  }

  lemma RemovedAt<T>(s: seq<T>, i: nat, x: T)
    requires i < |s| && x in s && x !in RemoveAt(s, i)
    ensures x == s[i]
  {
    assert s == s[..i] + [s[i]] + s[i + 1..];
  }

  /** Without a write the results are stored instances. */
  lemma {:induction false} QuietUntouched(
      list: seq<StoredInstance>, rows: Rows, desired: seq<InstanceInfo>, uuids: seq<InstanceID>)
    requires |desired| <= |uuids|
    ensures var m := MatchDesired(list, rows, desired, uuids);
            m.writes == 0 ==> Untouched(list, rows, desired, m)
    decreases |desired|
  {
    if desired == [] {
      assert [] + list == list;
    } else {
      hide MatchNext, Meets, Untouched;
      var n := |desired| - 1;
      assert desired == desired[..n] + [desired[n]];
      QuietUntouched(list, rows, desired[..n], uuids);
      UntouchedNext(list, rows, desired[..n], desired[n], MatchDesired(list, rows, desired[..n], uuids), uuids[n]);
    }
  }

  /** The first stored instance of an ident is taken, and the others keep their order. */
  lemma FirstTaken(list: seq<StoredInstance>, i: nat, ident: InstanceIdent, other: InstanceIdent)
    requires FirstWithIdent(list, ident, i)
    ensures var some := Filter(HasIdent(other), list);
            && (ident == other ==> some != [] && some[0] == list[i])
            && Filter(HasIdent(other), RemoveAt(list, i)) == if ident == other then some[1..] else some
  {
    FilterAround(HasIdent(other), list, i);
    if ident == other {
      FilterNone(HasIdent(other), list[..i]);
    }
    hide Filter, RemoveAt;
  }

  /** Without a write the desired instances of an ident take the stored ones in their order. */
  lemma {:induction false} QuietTakes(
      list: seq<StoredInstance>, rows: Rows, desired: seq<InstanceInfo>, uuids: seq<InstanceID>, ident: InstanceIdent)
    requires |desired| <= |uuids| && MatchDesired(list, rows, desired, uuids).writes == 0
    ensures Asked(desired, ident) <= Left(list, ident)
    ensures Filter(HasIdent(ident), MatchDesired(list, rows, desired, uuids).unmatched) ==
            Filter(HasIdent(ident), list)[Asked(desired, ident)..]
    decreases |desired|
  {
    if desired != [] {
      var n := |desired| - 1;
      var m := MatchDesired(list, rows, desired[..n], uuids);
      UntouchedNext(list, rows, desired[..n], desired[n], m, uuids[n]);
      QuietTakes(list, rows, desired[..n], uuids, ident);
      FirstTaken(m.unmatched, FindIdent(m.unmatched, desired[n].ident).value, desired[n].ident, ident);
      hide Filter, InfoEqual, FindIdent, MatchDesired;
    }
  }

  /** Without a write a desired instance equals the stored one whose turn it is. */
  lemma {:induction false} QuietMeets(
      list: seq<StoredInstance>, rows: Rows, desired: seq<InstanceInfo>, uuids: seq<InstanceID>, i: nat)
    requires i < |desired| <= |uuids| && MatchDesired(list, rows, desired, uuids).writes == 0
    ensures var some, k := Filter(HasIdent(desired[i].ident), list), Asked(desired[..i], desired[i].ident);
            k < |some| && InfoEqual(some[k].info, desired[i])
    decreases |desired|
  {
    hide Filter, InfoEqual, Asked, Meets;
    var n := |desired| - 1;
    var m := MatchDesired(list, rows, desired[..n], uuids);
    UntouchedNext(list, rows, desired[..n], desired[n], m, uuids[n]);
    if i < n {
      QuietMeets(list, rows, desired[..n], uuids, i);
      assert desired[..n][..i] == desired[..i];
    } else {
      QuietTakes(list, rows, desired[..n], uuids, desired[n].ident);
      MeetsFirst(m, desired[n]);
    }
  }

  lemma MeetsFirst(m: Matching, d: InstanceInfo)
    requires Meets(m, d)
    ensures var some := Filter(HasIdent(d.ident), m.unmatched);
            some != [] && InfoEqual(some[0].info, d)
  {
    FirstTaken(m.unmatched, FindIdent(m.unmatched, d.ident).value, d.ident, d.ident);
  }

  /** What is served is matched without a write. */
  lemma {:induction false} ServedIsQuiet(
      list: seq<StoredInstance>, rows: Rows, desired: seq<InstanceInfo>, uuids: seq<InstanceID>, n: nat)
    requires n <= |desired| <= |uuids| && IsListing(list, rows) && Served(rows, desired)
    ensures MatchDesired(list, rows, desired[..n], uuids).writes == 0
  {
    if n > 0 {
      hide IsListing, Meets, Served;
      ServedIsQuiet(list, rows, desired, uuids, n - 1);
      var m := MatchDesired(list, rows, desired[..n - 1], uuids);
      assert desired[..n][..n - 1] == desired[..n - 1];
      UntouchedNext(list, rows, desired[..n - 1], desired[n - 1], m, uuids[n - 1]);
      ServedMeets(list, rows, desired, uuids, n - 1);
    }
  }

  lemma ServedMeets(
      list: seq<StoredInstance>, rows: Rows, desired: seq<InstanceInfo>, uuids: seq<InstanceID>, n: nat)
    requires n < |desired| <= |uuids| && IsListing(list, rows) && Served(rows, desired)
    ensures Meets(MatchDesired(list, rows, desired[..n], uuids), desired[n])
  {
    var m, d := MatchDesired(list, rows, desired[..n], uuids), desired[n];
    LeftOver(list, rows, desired[..n], uuids, d.ident);
    LeftIsRows(list, rows, d.ident);
    AskedBefore(desired, n + 1, d.ident);
    assert desired[..n + 1][..n] == desired[..n];
    assert Asked(desired[..n + 1], d.ident) == Asked(desired[..n], d.ident) + 1;
    LeftSome(m.unmatched, d.ident);
    MatchingAnswers(list, rows, desired[..n], uuids);
    hide MatchDesired, InfoEqual, Left, Asked;
    var stored := m.unmatched[FindIdent(m.unmatched, d.ident).value];
    assert stored in list && stored.id in RowsWith(rows, d.ident);
  }

  /** If what is stored is what is desired, no call writes and the result is the stored list reordered. */
  lemma MatchingIsIdempotent(
      list: seq<StoredInstance>, rows: Rows, desired: seq<InstanceInfo>, uuids: seq<InstanceID>)
    requires |desired| <= |uuids| && IsListing(list, rows) && Settled(rows, desired)
    ensures var m := MatchDesired(list, rows, desired, uuids);
            WritesAfter(m) == 0 && RowsAfter(m) == rows && multiset(m.running) == multiset(list)
  {
    ServedIsQuiet(list, rows, desired, uuids, |desired|);
    assert desired[..|desired|] == desired;
    QuietUntouched(list, rows, desired, uuids);
    ListingSize(list, rows);
    hide MatchDesired, Served, IsListing;
    AllTaken(list, rows, desired, MatchDesired(list, rows, desired, uuids));
  }

  lemma AllTaken(list: seq<StoredInstance>, rows: Rows, desired: seq<InstanceInfo>, m: Matching)
    requires Untouched(list, rows, desired, m)
    ensures |m.unmatched| == |list| - |desired|
    ensures |list| == |desired| ==>
              WritesAfter(m) == 0 && RowsAfter(m) == rows && multiset(m.running) == multiset(list)
  {
    assert |multiset(m.running + m.unmatched)| == |m.running| + |m.unmatched|;
    if |list| == |desired| {
      assert m.running + m.unmatched == m.running;
    }
  }

  lemma ListingSize(list: seq<StoredInstance>, rows: Rows)
    requires IsListing(list, rows)
    ensures |list| == |rows|
    ensures Elements(Ids(list)) == rows.Keys
  {
    var ids := Ids(list);
    forall id | id in rows
      ensures id in ids
    {
      var k :| 0 <= k < |list| && list[k] == StoredInstance(rows[id], id);
      assert ids[k] == id;
    }
    forall id | id in ids
      ensures id in rows
    {
      var k :| 0 <= k < |list| && ids[k] == id;
      assert list[k] in list;
    }
    assert Elements(ids) == rows.Keys;
    DistinctCardinality(ids);
  }

  /* ---- Exactly when no order of the storage makes a repeated request write ---- */

  lemma {:induction false} SomeListing(rows: Rows) returns (list: seq<StoredInstance>)
    ensures IsListing(list, rows)
    decreases |rows|
  {
    list := [];
    if rows != map[] {
      var id :| id in rows;
      var rest := SomeListing(rows - {id});
      list := rest + [StoredInstance(rows[id], id)];
      AppendDistinctIds(rest, StoredInstance(rows[id], id));
      assert forall other :: other in rows && other != id ==> StoredInstance((rows - {id})[other], other) in rest;
    }
  }

  lemma {:induction false} SomeSubset<T>(s: set<T>, k: nat) returns (t: set<T>)
    requires k <= |s|
    ensures t <= s && |t| == k
    decreases k
  {
    t := {};
    if k > 0 {
      var smaller := SomeSubset(s, k - 1);
      assert s == smaller + (s - smaller);
      var x :| x in s - smaller;
      t := smaller + {x};
    }
  }

  function Only(rows: Rows, ids: set<InstanceID>): Rows {
    map id | id in rows && id in ids :: rows[id]
  }

  /** Any row of an ident comes as the k-th one of its ident in some listing. */
  lemma ListingWith(rows: Rows, ident: InstanceIdent, id: InstanceID, k: nat) returns (list: seq<StoredInstance>)
    requires id in RowsWith(rows, ident) && k < |RowsWith(rows, ident)|
    ensures IsListing(list, rows)
    ensures var some := Filter(HasIdent(ident), list);
            k < |some| && some[k] == StoredInstance(rows[id], id)
  {
    var others := RowsWith(rows, ident) - {id};
    var first := SomeSubset(others, k);
    var a := SomeListing(Only(rows, first));
    var b := SomeListing(rows - (first + {id}));
    var s := StoredInstance(rows[id], id);
    list := a + [s] + b;
    ListingSize(a, Only(rows, first));
    assert Only(rows, first).Keys == first;
    FilterAll(HasIdent(ident), a);
    FilterConcat(HasIdent(ident), a + [s], b);
    FilterConcat(HasIdent(ident), a, [s]);
    FilterOne(HasIdent(ident), s);
    hide Filter;
    assert Filter(HasIdent(ident), list) == a + [s] + Filter(HasIdent(ident), b);
    ListingInserted(rows, first, id, a, b);
  }

  lemma ListingInserted(
      rows: Rows, first: set<InstanceID>, id: InstanceID, a: seq<StoredInstance>, b: seq<StoredInstance>)
    requires id in rows && id !in first && IsListing(a, Only(rows, first)) && IsListing(b, rows - (first + {id}))
    ensures IsListing(a + [StoredInstance(rows[id], id)] + b, rows)
  {
    var s := StoredInstance(rows[id], id);
    var list := a + [s] + b;
    forall i, j | 0 <= i < j < |list| ensures list[i].id != list[j].id {
      assert i < |a| ==> list[i] in a;
      assert j < |a| ==> list[j] in a;
      assert i > |a| ==> list[i] in b;
      assert j > |a| ==> list[j] in b;
    }
    forall other | other in rows ensures StoredInstance(rows[other], other) in list {
      if other in first {
        assert StoredInstance(Only(rows, first)[other], other) in a;
      } else if other != id {
        assert StoredInstance((rows - (first + {id}))[other], other) in b;
      }
    }
  }

  /**
   * A request writes nothing in any order in which the storage may list its rows exactly if there are as many
   * desired instances as rows, of no ident more than rows, and each of them equals every row of its ident.
   */
  lemma QuietIff(rows: Rows, desired: seq<InstanceInfo>, uuids: seq<InstanceID>)
    requires |desired| <= |uuids|
    ensures (forall list :: IsListing(list, rows) ==> WritesAfter(MatchDesired(list, rows, desired, uuids)) == 0) <==>
            Settled(rows, desired)
  {
    hide IsListing, MatchDesired, InfoEqual, Asked, Filter;
    if Settled(rows, desired) {
      forall list | IsListing(list, rows) ensures WritesAfter(MatchDesired(list, rows, desired, uuids)) == 0 {
        MatchingIsIdempotent(list, rows, desired, uuids);
      }
    }
    if forall list :: IsListing(list, rows) ==> WritesAfter(MatchDesired(list, rows, desired, uuids)) == 0 {
      var list := SomeListing(rows);
      QuietCounts(list, rows, desired, uuids);
      forall d, id | d in desired && id in RowsWith(rows, d.ident) ensures InfoEqual(rows[id], d) {
        var i :| 0 <= i < |desired| && desired[i] == d;
        QuietMeets(list, rows, desired, uuids, i);
        LeftIsRows(list, rows, d.ident);
        var k := Asked(desired[..i], d.ident);
        var other := ListingWith(rows, d.ident, id, k);
        assert WritesAfter(MatchDesired(other, rows, desired, uuids)) == 0;
        QuietMeets(other, rows, desired, uuids, i);
      }
      forall d | d in desired ensures Asked(desired, d.ident) <= |RowsWith(rows, d.ident)| {
        QuietTakes(list, rows, desired, uuids, d.ident);
        LeftIsRows(list, rows, d.ident);
      }
    }
  }

  lemma QuietCounts(list: seq<StoredInstance>, rows: Rows, desired: seq<InstanceInfo>, uuids: seq<InstanceID>)
    requires |desired| <= |uuids| && IsListing(list, rows)
    requires WritesAfter(MatchDesired(list, rows, desired, uuids)) == 0
    ensures |desired| == |rows|
  {
    QuietUntouched(list, rows, desired, uuids);
    ListingSize(list, rows);
    hide MatchDesired, IsListing, Untouched;
    AllTaken(list, rows, desired, MatchDesired(list, rows, desired, uuids));
  }

  /* ---- Repeating a request ---- */

  function WantsIdent(ident: InstanceIdent): InstanceInfo -> bool {
    (d: InstanceInfo) => d.ident == ident
  }

  lemma {:induction false} AskedIsCount(desired: seq<InstanceInfo>, ident: InstanceIdent)
    ensures Asked(desired, ident) == |Filter(WantsIdent(ident), desired)|
  {
    if desired != [] {
      AskedIsCount(desired[..|desired| - 1], ident);
    }
  }

  lemma {:induction false} AskedIsLeft(running: seq<StoredInstance>, desired: seq<InstanceInfo>, ident: InstanceIdent)
    requires Answers(running, desired)
    ensures Left(running, ident) == Asked(desired, ident)
    decreases |desired|
  {
    if desired != [] {
      var n := |desired| - 1;
      AskedIsLeft(running[..n], desired[..n], ident);
      AnswerIdent(running[n].info, desired[n]);
    }
  }

  /** Two different instances of one ident: the rows answer the request, and repeating it may write. */
  lemma RepeatedIdentRewrites(a: InstanceInfo) returns (rows: Rows, desired: seq<InstanceInfo>)
    ensures exists running :: IsListing(running, rows) && Answers(running, desired)
    ensures !Settled(rows, desired)
  {
    var b := a.(priority := a.priority + 1);
    rows, desired := map["A" := a, "B" := b], [a, b];
    var running := [StoredInstance(a, "A"), StoredInstance(b, "B")];
    assert running[0] in running && running[1] in running;
    assert IsListing(running, rows) && Answers(running, desired);
    assert a in desired && "B" in RowsWith(rows, a.ident) && !InfoEqual(rows["B"], a);
  }

  lemma AskedAgain(
      rows: Rows, running: seq<StoredInstance>, desired: seq<InstanceInfo>, again: seq<InstanceInfo>,
      ident: InstanceIdent)
    requires IsListing(running, rows) && Answers(running, desired) && multiset(again) == multiset(desired)
    ensures Asked(again, ident) == |RowsWith(rows, ident)|
  {
    hide Filter, Asked, Answers;
    AskedIsCount(again, ident);
    AskedIsCount(desired, ident);
    FilterPermutation(WantsIdent(ident), again, desired);
    AskedIsLeft(running, desired, ident);
    LeftIsRows(running, rows, ident);
  }

  lemma AnswersAgain(
      rows: Rows, running: seq<StoredInstance>, desired: seq<InstanceInfo>, d: InstanceInfo, id: InstanceID)
    requires IsListing(running, rows) && Answers(running, desired) && id in RowsWith(rows, d.ident)
    requires forall e :: e in desired && d.ident == e.ident ==> d == e
    ensures InfoEqual(rows[id], d)
  {
    var i :| 0 <= i < |running| && running[i] == StoredInstance(rows[id], id);
    assert desired[i] in desired;
    AnswerIdent(running[i].info, desired[i]);
  }

  /** The rows that answered a request settle every permutation of it, if what it asks for of one ident is the same. */
  lemma AnsweredIsSettled(
      rows: Rows, running: seq<StoredInstance>, desired: seq<InstanceInfo>, again: seq<InstanceInfo>)
    requires IsListing(running, rows) && Answers(running, desired) && multiset(again) == multiset(desired)
    requires forall d, e :: d in desired && e in desired && d.ident == e.ident ==> d == e
    ensures Settled(rows, again)
  {
    ListingSize(running, rows);
    assert |multiset(again)| == |multiset(desired)|;
    hide InfoEqual, Answers, Asked, IsListing, RowsWith;
    forall d | d in again
      ensures Asked(again, d.ident) <= |RowsWith(rows, d.ident)|
    {
      AskedAgain(rows, running, desired, again, d.ident);
    }
    forall d, id | d in again && id in RowsWith(rows, d.ident)
      ensures InfoEqual(rows[id], d)
    {
      assert d in multiset(again);
      AnswersAgain(rows, running, desired, d, id);
    }
  }
}
