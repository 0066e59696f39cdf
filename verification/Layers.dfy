/** The layer manager: the cached flags of the storage and the outdated list of the space allocator. */
module Layers {
  import opened Sequences

  /** A row of the layers table, keyed by its digest, which also names the folder of the layer. */
  datatype Layer = Layer(digest: string, size: nat, timestamp: int, cached: bool)

  datatype Item = Item(id: string, size: nat, timestamp: int)

  /** What installing a layer meets: every foreign effect is an arbitrary outcome. */
  datatype Package = Package(
    extracts: bool, size: nat, ownShortage: nat, partShortage: nat, unpacks: bool, timestamp: int)

  datatype Desired = Desired(digest: string, package: Package)

  function ItemOf(layer: Layer): Item {
    Item(layer.digest, layer.size, layer.timestamp)
  }

  ghost predicate DistinctIds(items: seq<Item>) {
    forall i, j :: 0 <= i < j < |items| ==> items[i].id != items[j].id
  }

  ghost function Ids(items: seq<Item>): set<string> {
    set item | item in items :: item.id
  }

  ghost predicate Keyed(storage: map<string, Layer>) {
    forall d :: d in storage ==> storage[d].digest == d
  }

  /** The outdated list holds exactly one item for every cached layer, and none for a layer in use. */
  ghost predicate Coupled(storage: map<string, Layer>, outdated: seq<Item>) {
    && Keyed(storage) && DistinctIds(outdated)
    && (forall item :: item in outdated ==>
          item.id in storage && storage[item.id].cached && item == ItemOf(storage[item.id]))
    && (forall d :: d in storage && storage[d].cached ==> ItemOf(storage[d]) in outdated)
  }

  /** The layers in use. */
  ghost function Live(storage: map<string, Layer>): set<string> {
    set d | d in storage && !storage[d].cached
  }

  /** Same layers, but the layers `gone` are not there any more. */
  ghost predicate Without(before: map<string, Layer>, gone: set<string>, after: map<string, Layer>) {
    && after.Keys == before.Keys - gone
    && forall d :: d in after ==> after[d] == before[d]
  }

  /** A listing of the table, in any order. */
  ghost predicate IsListing(rows: seq<Layer>, storage: map<string, Layer>) {
    && Distinct(Digests(rows))
    && (forall row :: row in rows ==> row.digest in storage && storage[row.digest] == row)
    && (forall d :: d in storage ==> d in Digests(rows))
  }

  function Digests(rows: seq<Layer>): (r: seq<string>)
    ensures |r| == |rows| && forall i :: 0 <= i < |r| ==> r[i] == rows[i].digest
  {
    seq(|rows|, i requires 0 <= i < |rows| => rows[i].digest)
  }

  function Names(desired: seq<Desired>): (r: seq<string>)
    ensures |r| == |desired| && forall i :: 0 <= i < |r| ==> r[i] == desired[i].digest
  {
    seq(|desired|, i requires 0 <= i < |desired| => desired[i].digest)
  }

  /** The desired digests without one occurrence of each stored one. */
  function Remaining(desired: seq<string>, digests: seq<string>): seq<string> {
    if digests == [] then desired
    else RemoveFirst(Remaining(desired, digests[..|digests| - 1]), digests[|digests| - 1])
  }

  function Total(items: seq<Item>): nat {
    if items == [] then 0 else Total(items[..|items| - 1]) + items[|items| - 1].size
  }

  predicate Ascending(items: seq<Item>) {
    forall i, j :: 0 <= i < j < |items| ==> items[i].timestamp <= items[j].timestamp
  }

  /** The package extracts, fits without freeing anything and unpacks. */
  predicate Good(package: Package) {
    package.extracts && package.ownShortage == 0 && package.partShortage == 0 && package.unpacks
  }

  ghost predicate AllGood(desired: seq<Desired>) {
    forall x :: x in desired ==> Good(x.package)
  }

  /* ---- What is left to install ---- */

  lemma {:induction false} RemainingCount(desired: seq<string>, digests: seq<string>, x: string)
    requires Distinct(digests)
    ensures multiset(Remaining(desired, digests))[x] ==
            if x in digests && x in desired then multiset(desired)[x] - 1 else multiset(desired)[x]
  {
    if digests != [] {
      var n := |digests| - 1;
      assert digests == digests[..n] + [digests[n]];
      assert digests[n] !in digests[..n];
      RemainingCount(desired, digests[..n], x);
      RemoveFirstMultiset(Remaining(desired, digests[..n]), digests[n]);
      assert x in desired <==> multiset(desired)[x] > 0;
    }
  }

  lemma RemainingMember(desired: seq<string>, digests: seq<string>, x: string)
    requires Distinct(digests) && x !in digests
    ensures x in Remaining(desired, digests) <==> x in desired
  {
    RemainingCount(desired, digests, x);
    assert x in desired <==> multiset(desired)[x] > 0;
    assert x in Remaining(desired, digests) <==> multiset(Remaining(desired, digests))[x] > 0;
  }

  lemma RestNext(desired: seq<string>, digests: seq<string>, x: string, rest: seq<string>)
    requires Distinct(digests) && x !in digests && rest == Remaining(desired, digests)
    ensures x in rest <==> x in desired
    ensures Remaining(desired, digests + [x]) == RemoveFirst(rest, x)
  {
    RemainingMember(desired, digests, x);
    assert (digests + [x])[..|digests|] == digests;
  }

  lemma RemoveNamed(desired: seq<Desired>, k: nat)
    requires k < |desired| && desired[k].digest !in Names(desired)[..k]
    ensures Names(RemoveAt(desired, k)) == RemoveFirst(Names(desired), desired[k].digest)
    ensures forall all :: Among(desired, all) ==> Among(RemoveAt(desired, k), all)
  {
    RemoveFirstIndex(Names(desired), k);
    assert Names(RemoveAt(desired, k)) == RemoveAt(Names(desired), k);
  }

  /** The rest is distinct and not stored yet exactly when nothing is desired twice. */
  lemma RemainingIsNew(desired: seq<string>, digests: seq<string>)
    requires Distinct(digests)
    ensures Distinct(desired) <==>
            Distinct(Remaining(desired, digests)) && forall x :: x in Remaining(desired, digests) ==> x !in digests
  {
    var rest := Remaining(desired, digests);
    DistinctIsOnce(desired);
    DistinctIsOnce(rest);
    forall x ensures multiset(rest)[x] == if x in digests && x in desired then multiset(desired)[x] - 1
                                          else multiset(desired)[x]
             ensures (x in rest <==> multiset(rest)[x] > 0) && (x in desired <==> multiset(desired)[x] > 0) {
      RemainingCount(desired, digests, x);
    }
  }

  /* ---- Sizes ---- */

  lemma {:induction false} TotalConcat(a: seq<Item>, b: seq<Item>)
    ensures Total(a + b) == Total(a) + Total(b)
  {
    if b == [] {
      assert a + b == a;
    } else {
      assert (a + b)[..|a + b| - 1] == a + b[..|b| - 1];
      TotalConcat(a, b[..|b| - 1]);
    }
  }

  lemma TotalNext(items: seq<Item>, k: nat)
    requires k < |items|
    ensures Total(items[..k + 1]) == Total(items[..k]) + items[k].size
  {
    assert items[..k + 1][..k] == items[..k];
  }

  lemma MoreToEvict(items: seq<Item>, k: nat, required: nat)
    requires k <= |items| && Total(items[..k]) < required <= Total(items)
    ensures k < |items|
  {
    assert items[..|items|] == items;
  }

  lemma TotalMiddle(a: seq<Item>, x: Item, b: seq<Item>)
    ensures Total(a + [x] + b) == Total(a + b) + x.size
  {
    TotalConcat(a + [x], b);
    TotalConcat(a, [x]);
    TotalConcat(a, b);
    assert [x][..0] == [];
  }

  lemma TotalRemoveAt(items: seq<Item>, k: nat)
    requires k < |items|
    ensures Total(items) == Total(RemoveAt(items, k)) + items[k].size
  {
    hide Total;
    SplitAround(items, k);
    TotalMiddle(items[..k], items[k], items[k + 1..]);
  }

  lemma {:induction false} TotalPermutation(a: seq<Item>, b: seq<Item>)
    requires multiset(a) == multiset(b)
    ensures Total(a) == Total(b)
    decreases |a|
  {
    if a == [] {
      assert |multiset(b)| == 0;
    } else {
      assert a[0] in multiset(b);
      var k :| 0 <= k < |b| && b[k] == a[0];
      TotalRemoveAt(a, 0);
      TotalRemoveAt(b, k);
      RemoveAtMultiset(a, 0);
      RemoveAtMultiset(b, k);
      hide Total;
      TotalPermutation(RemoveAt(a, 0), RemoveAt(b, k));
    }
  }

  /* ---- The coupling ---- */

  lemma CoupledPermutation(storage: map<string, Layer>, a: seq<Item>, b: seq<Item>)
    requires Coupled(storage, a) && multiset(a) == multiset(b)
    ensures Coupled(storage, b)
  {
    forall x: Item ensures x in a <==> x in b {
      assert x in a <==> x in multiset(a);
      assert x in b <==> x in multiset(b);
    }
    assert Distinct(a);
    DistinctIsOnce(a);
    DistinctIsOnce(b);
    forall i, j | 0 <= i < j < |b| ensures b[i].id != b[j].id {
      assert b[i] != b[j] && b[i] in a && b[j] in a;
    }
  }

  lemma EvictionKeepsCoupled(storage: map<string, Layer>, items: seq<Item>, k: nat, after: map<string, Layer>)
    requires Coupled(storage, items) && k <= |items| && Without(storage, Ids(items[..k]), after)
    ensures Coupled(after, items[k..])
  {
    forall item | item in items[k..] ensures item.id !in Ids(items[..k]) && item in items {
      var j :| k <= j < |items| && items[j] == item;
    }
    forall d | d in after && after[d].cached ensures ItemOf(after[d]) in items[k..] {
      var item := ItemOf(storage[d]);
      var j :| 0 <= j < |items| && items[j] == item;
      assert forall i :: 0 <= i < k ==> items[..k][i].id in Ids(items[..k]);
      assert j >= k;
    }
  }

  lemma AddKeepsCoupled(storage: map<string, Layer>, outdated: seq<Item>, d: string)
    requires Coupled(storage, outdated) && d in storage && !storage[d].cached
    ensures d !in Ids(outdated)
    ensures Coupled(storage[d := storage[d].(cached := true)], outdated + [ItemOf(storage[d])])
  {
  }

  lemma RemoveAtByIds(items: seq<Item>, k: nat)
    requires DistinctIds(items) && k < |items|
    ensures DistinctIds(RemoveAt(items, k))
    ensures forall item :: item in RemoveAt(items, k) <==> item in items && item.id != items[k].id
  {
    assert Distinct(items);
    RemoveAtElements(items, k);
    forall item | item in items ensures item.id == items[k].id <==> item == items[k] {
      var j :| 0 <= j < |items| && items[j] == item;
    }
    RemoveAtDistinctIds(items, k);
    hide DistinctIds, RemoveAt;
  }

  lemma RemoveAtDistinctIds(items: seq<Item>, k: nat)
    requires DistinctIds(items) && k < |items|
    ensures DistinctIds(RemoveAt(items, k))
  {
    var rest := RemoveAt(items, k);
    assert forall i :: 0 <= i < |rest| ==> rest[i] == items[if i < k then i else i + 1];
  }

  /** A listed item is found at its only place, and replacing it by itself changes nothing. */
  lemma ListedOnce(items: seq<Item>, item: Item)
    requires DistinctIds(items) && item in items
    ensures exists k :: 0 <= k < |items| && items[k].id == item.id && item.id !in Ids(items[..k]) &&
                        items[k := item] == items
  {
    var k :| 0 <= k < |items| && items[k] == item;
    assert items[k := item] == items;
  }

  lemma RestoreKeepsCoupled(storage: map<string, Layer>, outdated: seq<Item>, k: nat, after: map<string, Layer>)
    requires Coupled(storage, outdated) && k < |outdated|
    requires Without(storage, {outdated[k].id}, after - {outdated[k].id}) && Keyed(after)
    requires outdated[k].id in after ==> !after[outdated[k].id].cached
    ensures Coupled(after, RemoveAt(outdated, k))
  {
    RemoveAtByIds(outdated, k);
    var d := outdated[k].id;
    hide RemoveAt;
    forall e | e in after && e != d ensures e in storage && after[e] == storage[e] {
      assert e in after - {d};
    }
    forall e | e in storage && e != d ensures e in after && after[e] == storage[e] {
      assert e in after - {d};
    }
    hide Without;
  }

  /** The first k items and their folders are gone. */
  ghost predicate Gone(
      storage: map<string, Layer>, folders: set<string>, items: seq<Item>, k: nat, now: map<string, Layer>,
      left: set<string>)
    requires k <= |items|
  {
    Without(storage, Ids(items[..k]), now) && left == folders - Ids(items[..k])
  }

  /** One more outdated item is removed: it is still stored. */
  lemma NextGone(
      storage: map<string, Layer>, folders: set<string>, items: seq<Item>, k: nat, now: map<string, Layer>,
      left: set<string>)
    requires Coupled(storage, items) && k < |items| && Gone(storage, folders, items, k, now, left)
    ensures items[k].id in now
    ensures Gone(storage, folders, items, k + 1, now - {items[k].id}, left - {items[k].id})
  {
    assert items[..k + 1] == items[..k] + [items[k]];
    assert items[k] in items;
    assert Ids(items[..k + 1]) == Ids(items[..k]) + {items[k].id};
    hide ItemOf;
  }

  lemma SplitAt<T>(s: seq<T>, k: nat)
    requires k <= |s|
    ensures s[..k] + s[k..] == s
    ensures k > 0 ==> s[..k][..|s[..k]| - 1] == s[..k - 1]
  {
  }

  lemma EvictedAreCached(storage: map<string, Layer>, items: seq<Item>, k: nat)
    requires Coupled(storage, items) && k <= |items|
    ensures forall d :: d in Ids(items[..k]) ==> d in storage && storage[d].cached
  {
  }

  /** No layer that is gone was younger than a cached one that is left. */
  ghost predicate OldestGone(before: map<string, Layer>, after: map<string, Layer>) {
    forall d, e :: d in before && d !in after && e in after && after[e].cached ==>
      before[d].timestamp <= after[e].timestamp
  }

  lemma NothingGone(storage: map<string, Layer>)
    ensures OldestGone(storage, storage)
  {
  }

  /** The oldest items are those of the oldest layers, with the sizes of these layers. */
  lemma EvictedAreOldest(storage: map<string, Layer>, items: seq<Item>, k: nat, after: map<string, Layer>)
    requires Coupled(storage, items) && Ascending(items) && k <= |items| && Without(storage, Ids(items[..k]), after)
    ensures OldestGone(storage, after)
    ensures forall item :: item in items[..k] ==> item.id in storage && item.size == storage[item.id].size
  {
    forall d, e | d in storage && d !in after && e in after && after[e].cached
      ensures storage[d].timestamp <= after[e].timestamp
    {
      var i :| 0 <= i < k && items[i].id == d;
      assert items[i] in items;
      var j :| 0 <= j < |items| && items[j] == ItemOf(storage[e]);
      assert forall l :: 0 <= l < k ==> items[..k][l].id in Ids(items[..k]);
      assert j >= k;
    }
    forall item | item in items[..k] ensures item.id in storage && item.size == storage[item.id].size {
      assert item in items;
    }
  }

  class LayerManager {
    const layerTTL: nat
    var storage: map<string, Layer>
    var folders: set<string>
    var outdated: seq<Item>

    ghost predicate Valid()
      reads this
    {
      Coupled(storage, outdated)
    }

    /** Every stored layer has its folder and no folder is left over. */
    ghost predicate Intact()
      reads this
    {
      folders == storage.Keys
    }

    /* ---- The space allocator ---- */

    method AddOutdatedItem(item: Item)
      modifies this`outdated
      ensures item.id !in Ids(old(outdated)) ==> outdated == old(outdated) + [item]
      ensures forall k :: 0 <= k < |old(outdated)| && old(outdated)[k].id == item.id ==>
                (item.id !in Ids(old(outdated)[..k]) ==> outdated == old(outdated)[k := item])
    {
      var i := 0;
      while i < |outdated|
        invariant i <= |outdated| && outdated == old(outdated)
        invariant item.id !in Ids(outdated[..i])
      {
        if outdated[i].id == item.id {
          outdated := outdated[i := item];
          return;
        }
        i := i + 1;
      }
      outdated := outdated + [item];
    }

    /** Removes the first item with this id, if there is one. */
    method RestoreOutdatedItem(id: string) returns (ghost k: nat)
      modifies this`outdated
      ensures id !in Ids(old(outdated)) ==> outdated == old(outdated)
      ensures id in Ids(old(outdated)) ==>
                k < |old(outdated)| && old(outdated)[k].id == id && outdated == RemoveAt(old(outdated), k)
    {
      k := 0;
      for i := 0 to |outdated|
        invariant outdated == old(outdated) && id !in Ids(outdated[..i])
      {
        if outdated[i].id == id {
          k := i;
          outdated := RemoveAt(outdated, i);
          return;
        }
      }
      assert outdated[..|outdated|] == outdated;
    }

    /**
     * Frees at least the required size: the oldest items go, no more of them than needed, and what goes is removed
     * together with its folder.  The remover never fails, as every outdated item is a stored layer.
     */
    method RemoveOutdatedItems(requiredSize: nat) returns (ok: bool, ghost evicted: seq<Item>)
      requires Valid()
      modifies this
      ensures Valid() && (ok <==> requiredSize <= Total(old(outdated)))
      ensures !ok ==> evicted == [] && outdated == old(outdated)
      ensures ok ==> multiset(evicted + outdated) == multiset(old(outdated)) && Ascending(evicted + outdated)
      ensures ok ==> requiredSize <= Total(evicted) == Total(old(outdated)) - Total(outdated)
      ensures evicted != [] ==> Total(evicted[..|evicted| - 1]) < requiredSize
      ensures Without(old(storage), Ids(evicted), storage) && folders == old(folders) - Ids(evicted)
      ensures forall d :: d in Ids(evicted) ==> d in old(storage) && old(storage)[d].cached
      ensures OldestGone(old(storage), storage)
      ensures forall item :: item in evicted ==> item.size == old(storage)[item.id].size
    {
      var totalSize := TotalSize();
      if requiredSize > totalSize {
        NothingGone(storage);
        return false, [];
      }
      hide Total, Coupled, Ascending, Without, Ids;
      var sorted := SortByTimestamp(outdated);
      CoupledPermutation(storage, outdated, sorted);
      TotalPermutation(outdated, sorted);
      outdated := sorted;
      var i := RemoveOldest(requiredSize);
      EvictionKeepsCoupled(old(storage), sorted, i, storage);
      EvictedAreCached(old(storage), sorted, i);
      EvictedAreOldest(old(storage), sorted, i, storage);
      SplitAt(sorted, i);
      TotalConcat(sorted[..i], sorted[i..]);
      evicted, outdated := sorted[..i], sorted[i..];
      ok := true;
    }

    method TotalSize() returns (totalSize: nat)
      ensures totalSize == Total(outdated)
    {
      totalSize := 0;
      for k := 0 to |outdated|
        invariant totalSize == Total(outdated[..k])
      {
        assert outdated[..k + 1][..k] == outdated[..k];
        totalSize := totalSize + outdated[k].size;
      }
      assert outdated[..|outdated|] == outdated;
    }

    /** Removes items from the front until enough is free. */
    method RemoveOldest(requiredSize: nat) returns (i: nat)
      requires Valid() && requiredSize <= Total(outdated)
      modifies this`storage, this`folders
      ensures i <= |outdated| && requiredSize <= Total(outdated[..i])
      ensures i > 0 ==> Total(outdated[..i - 1]) < requiredSize
      ensures Gone(old(storage), old(folders), outdated, i, storage, folders)
    {
      i := 0;
      var freedSize := 0;
      assert Total(outdated[..0]) == 0 && Gone(storage, folders, outdated, 0, storage, folders);
      hide Coupled, Gone, Total;
      while freedSize < requiredSize
        invariant i <= |outdated|
        invariant freedSize == Total(outdated[..i])
        invariant i > 0 ==> Total(outdated[..i - 1]) < requiredSize
        invariant Gone(old(storage), old(folders), outdated, i, storage, folders)
        decreases |outdated| - i
      {
        MoreToEvict(outdated, i, requiredSize);
        TotalNext(outdated, i);
        NextGone(old(storage), old(folders), outdated, i, storage, folders);
        var removed := RemoveLayer(outdated[i].id);
        freedSize := freedSize + outdated[i].size;
        i := i + 1;
      }
    }

    /** First within the limit of the layers directory, then on the whole partition. */
    method AllocateSpace(ownShortage: nat, partShortage: nat) returns (ok: bool)
      requires Valid()
      modifies this
      ensures Valid()
      ensures Without(old(storage), old(storage.Keys) - storage.Keys, storage)
      ensures folders == old(folders) - (old(storage.Keys) - storage.Keys)
      ensures Live(storage) == Live(old(storage))
      ensures ok ==> ownShortage + partShortage <= Total(old(outdated)) - Total(outdated)
      ensures !ok ==> ownShortage > Total(old(outdated)) || partShortage > Total(outdated)
      ensures ownShortage == 0 && partShortage == 0 ==> ok && storage == old(storage)
    {
      ghost var evicted;
      ok := true;
      if ownShortage > 0 {
        ok, evicted := RemoveOutdatedItems(ownShortage);
        LiveWithout(old(storage), Ids(evicted), storage);
      }
      if ok && partShortage > 0 {
        ghost var before := storage;
        ok, evicted := RemoveOutdatedItems(partShortage);
        LiveWithout(before, Ids(evicted), storage);
      }
    }

    /* ---- The storage ---- */

    method GetLayersInfo() returns (rows: seq<Layer>)
      requires Keyed(storage)
      ensures IsListing(rows, storage)
    {
      rows := [];
      var keys := storage.Keys;
      while keys != {}
        invariant keys <= storage.Keys && Distinct(Digests(rows))
        invariant forall row :: row in rows ==> row.digest in storage && storage[row.digest] == row
        invariant forall d :: d in storage ==> (d in Digests(rows) <==> d !in keys)
        decreases keys
      {
        var d :| d in keys;
        assert Digests(rows + [storage[d]]) == Digests(rows) + [d];
        rows := rows + [storage[d]];
        keys := keys - {d};
      }
    }

    /** `false`: no such layer. */
    method RemoveLayer(digest: string) returns (ok: bool)
      modifies this`storage, this`folders
      ensures ok <==> digest in old(storage)
      ensures ok ==> storage == old(storage) - {digest} && folders == old(folders) - {digest}
      ensures !ok ==> storage == old(storage) && folders == old(folders)
    {
      if digest !in storage {
        return false;
      }
      folders := folders - {digest};
      storage := storage - {digest};
      return true;
    }

    method SetLayerCached(layer: Layer, cached: bool)
      requires Valid() && layer.digest in storage && storage[layer.digest] == layer
      modifies this`storage, this`outdated
      ensures Valid() && storage == old(storage)[layer.digest := layer.(cached := cached)]
      ensures layer.cached == cached ==> outdated == old(outdated)
    {
      var d := layer.digest;
      storage := storage[d := layer.(cached := cached)];
      if cached {
        if !layer.cached {
          AddKeepsCoupled(old(storage), outdated, d);
        } else {
          assert storage == old(storage) && ItemOf(layer) in outdated;
          ListedOnce(outdated, ItemOf(layer));
        }
        AddOutdatedItem(ItemOf(layer));
      } else {
        if layer.cached {
          assert ItemOf(layer) in outdated;
        } else {
          assert storage == old(storage) && d !in Ids(outdated);
        }
        ghost var k := RestoreOutdatedItem(d);
        if layer.cached {
          RestoreKeepsCoupled(old(storage), old(outdated), k, storage);
        }
      }
    }

    /* ---- Start-up and the sweep ---- */

    method RemoveDamagedLayerFolders()
      requires Keyed(storage)
      modifies this`storage, this`folders
      ensures Keyed(storage) && Intact()
      ensures Without(old(storage), old(storage.Keys) - old(folders), storage)
    {
      var rows := GetLayersInfo();
      for k := 0 to |rows|
        invariant folders == old(folders)
        invariant Without(old(storage), Elements(Digests(rows[..k])) - folders, storage)
      {
        assert Digests(rows[..k + 1]) == Digests(rows[..k]) + [rows[k].digest];
        if rows[k].digest !in folders {
          storage := storage - {rows[k].digest};
        }
      }
      assert rows[..|rows|] == rows;
      folders := folders * Elements(Digests(rows));
    }

    method SetOutdatedLayers()
      requires Keyed(storage) && outdated == []
      modifies this`outdated
      ensures Valid()
    {
      var rows := GetLayersInfo();
      for k := 0 to |rows|
        invariant Coupled(Kept(storage, Elements(Digests(rows[..k]))), outdated)
      {
        assert Digests(rows[..k + 1]) == Digests(rows[..k]) + [rows[k].digest];
        assert rows[k].digest !in Digests(rows)[..k];
        assert Digests(rows)[..k] == Digests(rows[..k]);
        NextKept(storage, Elements(Digests(rows[..k])), rows[k], outdated);
        if rows[k].cached {
          AddOutdatedItem(ItemOf(rows[k]));
        }
        assert Elements(Digests(rows[..k + 1])) == Elements(Digests(rows[..k])) + {rows[k].digest};
      }
      assert rows[..|rows|] == rows;
      assert Kept(storage, Elements(Digests(rows))) == storage;
    }

    /** One expired layer of the sweep. */
    method SweepLayer(layer: Layer)
      requires Valid() && layer.digest in storage && storage[layer.digest] == layer && layer.cached
      modifies this
      ensures Valid() && storage == old(storage) - {layer.digest} && folders == old(folders) - {layer.digest}
    {
      assert ItemOf(layer) in outdated;
      var removed := RemoveLayer(layer.digest);
      ghost var k := RestoreOutdatedItem(layer.digest);
      RestoreKeepsCoupled(old(storage), old(outdated), k, storage);
    }

    /** Removes exactly the cached layers whose time to live is over. */
    method RemoveOutdatedLayers(now: int)
      requires Valid()
      modifies this
      ensures Valid() && Live(storage) == Live(old(storage))
      ensures Without(old(storage), Expired(old(storage), layerTTL, now), storage)
      ensures folders == old(folders) - Expired(old(storage), layerTTL, now)
      ensures forall d :: d in storage <==>
                d in old(storage) && (!old(storage)[d].cached || now <= old(storage)[d].timestamp + layerTTL)
      ensures forall d :: d in folders <==> d in old(folders) && (d in old(storage) ==> d in storage)
    {
      var rows := GetLayersInfo();
      ghost var expired := Expired(storage, layerTTL, now);
      for k := 0 to |rows|
        invariant Valid()
        invariant Without(old(storage), expired * Elements(Digests(rows[..k])), storage)
        invariant folders == old(folders) - expired * Elements(Digests(rows[..k]))
      {
        var layer := rows[k];
        NextSwept(old(storage), rows, k, layerTTL, now, storage);
        hide Coupled, Without, Expired, Elements, Keyed, IsListing;
        if layer.cached && layer.timestamp + layerTTL < now {
          SweepLayer(layer);
        }
      }
      assert rows[..|rows|] == rows;
      assert expired * Elements(Digests(rows)) == expired;
      LiveWithout(old(storage), expired, storage);
    }

    constructor (ttl: nat, storage: map<string, Layer>, folders: set<string>, now: int)
      requires Keyed(storage)
      ensures Valid() && Intact() && layerTTL == ttl
      ensures Live(this.storage) == Live(storage) * folders
      ensures forall d :: d in this.storage <==>
                d in storage && d in folders && (!storage[d].cached || now <= storage[d].timestamp + ttl)
      ensures forall d :: d in this.storage ==> d in storage && this.storage[d] == storage[d]
    {
      layerTTL := ttl;
      this.storage, this.folders, outdated := storage, folders, [];
      new;
      RemoveDamagedLayerFolders();
      SetOutdatedLayers();
      RemoveOutdatedLayers(now);
    }

    /* ---- The desired layers ---- */

    /** Sets the flag of one stored layer, unless it is set already. */
    method FlagLayer(layer: Layer, cached: bool)
      requires Valid() && layer.digest in storage && storage[layer.digest] == layer
      modifies this`storage, this`outdated
      ensures Valid() && storage == old(storage)[layer.digest := layer.(cached := cached)]
    {
      assert storage == storage[layer.digest := layer];
      if layer.cached != cached {
        SetLayerCached(layer, cached);
      }
    }

    /**
     * Every stored layer is in use afterwards iff it is desired; what is left to install is the desired list without
     * one occurrence of each stored digest.
     */
    method UpdateCachedLayers(desiredLayers: seq<Desired>, storeLayers: seq<Layer>) returns (install: seq<Desired>)
      requires Valid() && IsListing(storeLayers, storage)
      modifies this`storage, this`outdated
      ensures Valid() && storage == Flagged(old(storage), Names(desiredLayers))
      ensures Names(install) == Remaining(Names(desiredLayers), Digests(storeLayers))
      ensures Among(install, desiredLayers)
    {
      install := desiredLayers;
      ghost var names := Names(desiredLayers);
      FlaggedEnds(storage, names, storeLayers);
      assert Among(install, desiredLayers);
      hide Coupled, FlaggedSome, Flagged, IsListing, Remaining, Elements, Distinct, Digests, RemoveAt, RemoveFirst,
        Among;
      for k := 0 to |storeLayers|
        invariant Valid() && IsListing(storeLayers, old(storage))
        invariant storage == FlaggedSome(old(storage), names, Elements(Digests(storeLayers[..k])))
        invariant Names(install) == Remaining(names, Digests(storeLayers[..k]))
        invariant Among(install, desiredLayers)
      {
        var storeLayer := storeLayers[k];
        ListingNext(storeLayers, old(storage), k);
        RestNext(names, Digests(storeLayers[..k]), storeLayer.digest, Names(install));
        FlaggedNext(old(storage), names, Elements(Digests(storeLayers[..k])), storeLayer);
        var i := FindDesired(install, storeLayer.digest);
        if i < |install| {
          FlagLayer(storeLayer, false);
          RemoveNamed(install, i);
          install := RemoveAt(install, i);
        } else {
          RemoveFirstAbsent(Names(install), storeLayer.digest);
          FlagLayer(storeLayer, true);
        }
      }
      assert storeLayers[..|storeLayers|] == storeLayers;
    }

    /**
     * A new layer gets its folder and its row, or nothing of it stays.  A layer that is stored already fails at its
     * row, and giving the space back removes the folder of the stored layer.
     */
    method InstallLayer(desired: Desired) returns (ok: bool)
      requires Valid()
      modifies this
      ensures Valid()
      ensures Live(storage) == Live(old(storage)) + if ok then {desired.digest} else {}
      ensures ok ==> desired.digest !in Live(old(storage))
      ensures old(Intact()) && desired.digest !in old(storage) ==> Intact()
      ensures Good(desired.package) ==> (ok <==> desired.digest !in old(storage))
      ensures Good(desired.package) ==>
                && storage.Keys == old(storage.Keys) + {desired.digest}
                && folders == if ok then old(folders) + {desired.digest} else old(folders) - {desired.digest}
      ensures storage.Keys <= old(storage.Keys) + {desired.digest}
      ensures ok ==>
                && desired.digest in storage && desired.digest in folders
                && storage[desired.digest] ==
                   Layer(desired.digest, desired.package.size, desired.package.timestamp, false)
      ensures OthersKept(old(storage), old(folders), storage, folders, desired.digest)
    {
      var digest := desired.digest;
      if !desired.package.extracts {
        return false;
      }
      ok := AllocateSpace(desired.package.ownShortage, desired.package.partShortage);
      if !ok {
        return;
      }
      folders := folders + {digest};
      if !desired.package.unpacks {
        folders := folders - {digest};
        return false;
      }
      if digest in storage {
        folders := folders - {digest};
        return false;
      }
      ghost var before := storage;
      storage := storage[digest := Layer(digest, desired.package.size, desired.package.timestamp, false)];
      NewKeepsCoupled(before, outdated, storage[digest]);
      return true;
    }

    method InstallLayers(desiredLayers: seq<Desired>) returns (ok: bool)
      requires Valid()
      modifies this
      ensures Valid()
      ensures Live(old(storage)) <= Live(storage) <= Live(old(storage)) + Elements(Names(desiredLayers))
      ensures ok ==> Live(storage) == Live(old(storage)) + Elements(Names(desiredLayers))
      ensures ok ==> Distinct(Names(desiredLayers)) && Elements(Names(desiredLayers)) !! Live(old(storage))
      ensures old(Intact()) && AllNew(desiredLayers, old(storage)) ==> Intact()
      ensures AllGood(desiredLayers) ==> (ok <==> AllNew(desiredLayers, old(storage)))
      ensures AllGood(desiredLayers) && !ok ==> !Intact()
    {
      ghost var names := Names(desiredLayers);
      assert Elements(names[..0]) == {} && Distinct(names[..0]);
      assert names[..|desiredLayers|] == names;
      hide Coupled, Elements, Distinct, Live, Good, OthersKept;
      for i := 0 to |desiredLayers|
        invariant Valid() && Distinct(names[..i]) && Elements(names[..i]) !! Live(old(storage))
        invariant Live(storage) == Live(old(storage)) + Elements(names[..i])
        invariant storage.Keys <= old(storage.Keys) + Elements(names[..i])
        invariant AllGood(desiredLayers) ==> storage.Keys == old(storage.Keys) + Elements(names[..i])
        invariant AllGood(desiredLayers) ==> forall j :: 0 <= j < i ==> names[j] !in old(storage)
        invariant old(Intact()) && AllNew(desiredLayers, old(storage)) ==> Intact()
      {
        PrefixNext(desiredLayers, i, old(storage));
        hide AllNew;
        ok := InstallLayer(desiredLayers[i]);
        if !ok {
          return;
        }
      }
      ok := true;
    }

    /**
     * After a success the layers in use are exactly the desired ones.  Whatever fails, no desired layer in use is
     * lost and nothing else stays in use.  Folders and rows stay together when nothing is desired twice; when all
     * packages are good this is also the condition for success, and without it the folder of a stored layer is gone.
     */
    method ProcessDesiredLayers(desiredLayers: seq<Desired>) returns (ok: bool)
      requires Valid()
      modifies this
      ensures Valid()
      ensures Live(old(storage)) * Elements(Names(desiredLayers)) <= Live(storage) <= Elements(Names(desiredLayers))
      ensures ok ==> Live(storage) == Elements(Names(desiredLayers)) && Distinct(Names(desiredLayers))
      ensures old(Intact()) && Distinct(Names(desiredLayers)) ==> Intact()
      ensures AllGood(desiredLayers) ==> (ok <==> Distinct(Names(desiredLayers)))
      ensures AllGood(desiredLayers) && old(Intact()) ==> (Intact() <==> Distinct(Names(desiredLayers)))
    {
      var layers := GetLayersInfo();
      ghost var names := Names(desiredLayers);
      var install := UpdateCachedLayers(desiredLayers, layers);
      ghost var before := storage;
      assert before.Keys == old(storage.Keys) == Elements(Digests(layers));
      RestIsNew(desiredLayers, install, layers, before);
      hide Flagged, Remaining, IsListing, Coupled, AllNew;
      ok := InstallLayers(install);
    }
  }

  /* ---- What the methods are specified by ---- */

  ghost function Flagged(storage: map<string, Layer>, names: seq<string>): map<string, Layer> {
    map d | d in storage :: storage[d].(cached := d !in names)
  }

  ghost function FlaggedSome(storage: map<string, Layer>, names: seq<string>, some: set<string>): map<string, Layer> {
    map d | d in storage :: if d in some then storage[d].(cached := d !in names) else storage[d]
  }

  ghost function Kept(storage: map<string, Layer>, some: set<string>): map<string, Layer> {
    map d | d in storage && d in some :: storage[d]
  }

  ghost function Expired(storage: map<string, Layer>, ttl: nat, now: int): set<string> {
    set d | d in storage && storage[d].cached && storage[d].timestamp + ttl < now
  }

  /** Of the other layers none is new or changed, and only removed ones lose their folder. */
  ghost predicate OthersKept(
      before: map<string, Layer>, was: set<string>, storage: map<string, Layer>, folders: set<string>, digest: string)
  {
    && (forall d :: d in storage && d != digest ==> d in before && storage[d] == before[d])
    && (forall d :: d != digest ==> (d in folders <==> d in was && (d in before ==> d in storage)))
  }

  ghost predicate Among(some: seq<Desired>, all: seq<Desired>) {
    forall x :: x in some ==> x in all
  }

  ghost predicate AllNew(desired: seq<Desired>, storage: map<string, Layer>) {
    Distinct(Names(desired)) && forall d :: d in Names(desired) ==> d !in storage
  }

  lemma LiveWithout(before: map<string, Layer>, gone: set<string>, after: map<string, Layer>)
    requires Without(before, gone, after)
    requires forall d :: d in gone && d in before ==> before[d].cached
    ensures Live(after) == Live(before)
  {
  }

  lemma NextKept(storage: map<string, Layer>, some: set<string>, row: Layer, outdated: seq<Item>)
    requires Keyed(storage) && Coupled(Kept(storage, some), outdated)
    requires row.digest in storage && storage[row.digest] == row && row.digest !in some
    ensures row.digest !in Ids(outdated)
    ensures Coupled(Kept(storage, some + {row.digest}), if row.cached then outdated + [ItemOf(row)] else outdated)
  {
    var kept, next := Kept(storage, some), Kept(storage, some + {row.digest});
    forall d | d in next && d != row.digest ensures d in kept && kept[d] == next[d] {
    }
  }

  lemma ListingNext(rows: seq<Layer>, storage: map<string, Layer>, k: nat)
    requires IsListing(rows, storage) && k < |rows|
    ensures rows[k].digest in storage && storage[rows[k].digest] == rows[k]
    ensures Digests(rows[..k + 1]) == Digests(rows[..k]) + [rows[k].digest]
    ensures Distinct(Digests(rows[..k])) && rows[k].digest !in Digests(rows[..k])
    ensures Elements(Digests(rows[..k + 1])) == Elements(Digests(rows[..k])) + {rows[k].digest}
  {
    assert Digests(rows)[..k] == Digests(rows[..k]);
    assert rows[k] in rows;
    assert Digests(rows[..k + 1]) == Digests(rows[..k]) + [rows[k].digest];
  }

  lemma NextSwept(
      storage: map<string, Layer>, rows: seq<Layer>, k: nat, ttl: nat, time: int, now: map<string, Layer>)
    requires IsListing(rows, storage) && k < |rows|
    requires Without(storage, Expired(storage, ttl, time) * Elements(Digests(rows[..k])), now)
    ensures rows[k].digest in now && now[rows[k].digest] == rows[k]
    ensures var gone := Expired(storage, ttl, time) * Elements(Digests(rows[..k]));
            var next := Expired(storage, ttl, time) * Elements(Digests(rows[..k + 1]));
            if rows[k].cached && rows[k].timestamp + ttl < time
            then next == gone + {rows[k].digest} && Without(storage, next, now - {rows[k].digest})
            else next == gone
  {
    ListingNext(rows, storage, k);
    hide IsListing;
  }

  lemma FlaggedNext(storage: map<string, Layer>, names: seq<string>, some: set<string>, row: Layer)
    requires row.digest in storage && storage[row.digest] == row && row.digest !in some
    ensures FlaggedSome(storage, names, some)[row.digest] == row
    ensures FlaggedSome(storage, names, some + {row.digest}) ==
            FlaggedSome(storage, names, some)[row.digest := row.(cached := row.digest !in names)]
  {
  }

  lemma FlaggedEnds(storage: map<string, Layer>, names: seq<string>, rows: seq<Layer>)
    requires IsListing(rows, storage)
    ensures FlaggedSome(storage, names, Elements(Digests(rows[..0]))) == storage
    ensures FlaggedSome(storage, names, Elements(Digests(rows))) == Flagged(storage, names)
    ensures Remaining(names, Digests(rows[..0])) == names
  {
    assert Digests(rows[..0]) == [];
    assert forall d :: d in storage ==> d in Elements(Digests(rows));
  }

  lemma PrefixNext(desired: seq<Desired>, i: nat, storage: map<string, Layer>)
    requires i < |desired|
    ensures var names := Names(desired);
            && Elements(names[..i + 1]) == Elements(names[..i]) + {names[i]}
            && (Distinct(names[..i + 1]) <==> Distinct(names[..i]) && names[i] !in Elements(names[..i]))
            && (AllNew(desired, storage) ==> names[i] !in storage && names[i] !in Elements(names[..i]))
  {
    var names := Names(desired);
    assert names[..i + 1] == names[..i] + [names[i]];
    assert names[i] in names;
  }

  lemma NewKeepsCoupled(storage: map<string, Layer>, outdated: seq<Item>, layer: Layer)
    requires Coupled(storage, outdated) && layer.digest !in storage && !layer.cached
    ensures Coupled(storage[layer.digest := layer], outdated)
    ensures Live(storage[layer.digest := layer]) == Live(storage) + {layer.digest}
  {
  }

  lemma RestIsNew(desired: seq<Desired>, install: seq<Desired>, rows: seq<Layer>, storage: map<string, Layer>)
    requires Distinct(Digests(rows)) && storage.Keys == Elements(Digests(rows))
    requires Names(install) == Remaining(Names(desired), Digests(rows))
    requires forall d :: d in storage ==> (storage[d].cached <==> d !in Names(desired))
    ensures AllNew(install, storage) <==> Distinct(Names(desired))
    ensures Elements(Names(install)) <= Elements(Names(desired)) <= Live(storage) + Elements(Names(install))
    ensures Live(storage) <= Elements(Names(desired))
    ensures Distinct(Names(install)) && Elements(Names(install)) !! Live(storage) ==> Distinct(Names(desired))
  {
    var names, rest := Names(desired), Names(install);
    RemainingIsNew(names, Digests(rows));
    forall d ensures d in rest ==> d in names
             ensures d in names && d !in storage ==> d in rest {
      RemainingCount(names, Digests(rows), d);
      assert d in names <==> multiset(names)[d] > 0;
      assert d in rest <==> multiset(rest)[d] > 0;
      assert d in storage <==> d in Digests(rows);
    }
    forall d ensures d in rest && d in storage ==> d in Live(storage) {
    }
  }

  method FindDesired(desired: seq<Desired>, digest: string) returns (i: nat)
    ensures i <= |desired| && digest !in Names(desired)[..i]
    ensures i < |desired| ==> desired[i].digest == digest
    ensures i == |desired| <==> digest !in Names(desired)
  {
    i := 0;
    while i < |desired| && desired[i].digest != digest
      invariant i <= |desired| && digest !in Names(desired)[..i]
    {
      i := i + 1;
    }
    assert Names(desired)[..|desired|] == Names(desired);
  }

  method SortByTimestamp(items: seq<Item>) returns (sorted: seq<Item>)
    ensures multiset(sorted) == multiset(items) && Ascending(sorted)
  {
    sorted := [];
    for i := 0 to |items|
      invariant multiset(sorted) == multiset(items[..i]) && Ascending(sorted)
    {
      sorted := InsertByTimestamp(sorted, items[i]);
      assert items[..i + 1] == items[..i] + [items[i]];
    }
    assert items[..|items|] == items;
  }

  method InsertByTimestamp(sorted: seq<Item>, item: Item) returns (longer: seq<Item>)
    requires Ascending(sorted)
    ensures multiset(longer) == multiset(sorted) + multiset{item} && Ascending(longer)
  {
    var j := 0;
    while j < |sorted| && sorted[j].timestamp <= item.timestamp
      invariant j <= |sorted|
      invariant forall k :: 0 <= k < j ==> sorted[k].timestamp <= item.timestamp
    {
      j := j + 1;
    }
    InsertMultiset(sorted, j, item);
    InsertAscending(sorted, j, item);
    longer := sorted[..j] + [item] + sorted[j..];
  }

  lemma InsertAscending(s: seq<Item>, j: nat, x: Item)
    requires j <= |s| && Ascending(s)
    requires forall k :: 0 <= k < j ==> s[k].timestamp <= x.timestamp
    requires j < |s| ==> s[j].timestamp > x.timestamp
    ensures Ascending(s[..j] + [x] + s[j..])
  {
  }
}
