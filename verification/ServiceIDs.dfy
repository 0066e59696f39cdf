/** The IDs under which cached services are known to the space allocator. */
module ServiceIDs {
  import opened Sequences

  datatype Service = Service(id: string, version: string)

  function Printed(id: string, version: string): string {
    id + "_" + version
  }

  /** The fields between the underscores: always one more than there are underscores. */
  function Split(s: string): (fields: seq<string>)
    ensures |fields| > 0
    decreases |s|
  {
    if s == [] then [[]]
    else if s[|s| - 1] == '_' then Split(s[..|s| - 1]) + [[]]
    else
      var fields := Split(s[..|s| - 1]);
      fields[|fields| - 1 := fields[|fields| - 1] + [s[|s| - 1]]]
  }

  function Join(fields: seq<string>): string {
    if fields == [] then []
    else if |fields| == 1 then fields[0]
    else Join(fields[..|fields| - 1]) + "_" + fields[|fields| - 1]
  }

  /** Splits, drops the last field and joins; none if there is just one field. */
  function Parsed(s: string): Option<Service> {
    var fields := Split(s);
    if |fields| < 2 then None
    else Some(Service(Join(fields[..|fields| - 1]), fields[|fields| - 1]))
  }

  lemma {:induction false} JoinSplit(s: string)
    ensures Join(Split(s)) == s
    ensures '_' !in Split(s)[|Split(s)| - 1]
    decreases |s|
  {
    if s != [] {
      var before, last := s[..|s| - 1], s[|s| - 1];
      JoinSplit(before);
      var fields := Split(before);
      assert s == before + [last];
      if last == '_' {
        assert (fields + [[]])[..|fields|] == fields;
      } else {
        assert fields[|fields| - 1 := fields[|fields| - 1] + [last]][..|fields| - 1] == fields[..|fields| - 1];
      }
    }
  }

  lemma {:induction false} SplitPlain(s: string)
    requires '_' !in s
    ensures Split(s) == [s]
    decreases |s|
  {
    if s != [] {
      SplitPlain(s[..|s| - 1]);
      assert s == s[..|s| - 1] + [s[|s| - 1]];
    }
  }

  lemma {:induction false} SplitPrinted(id: string, version: string)
    requires '_' !in version
    ensures Split(Printed(id, version)) == Split(id) + [version]
    decreases |version|
  {
    var s := Printed(id, version);
    if version == [] {
      assert s[..|s| - 1] == id && s[|s| - 1] == '_';
    } else {
      var before := version[..|version| - 1];
      assert s[..|s| - 1] == Printed(id, before) && s[|s| - 1] == version[|version| - 1];
      SplitPrinted(id, before);
      assert version == before + [version[|version| - 1]];
    }
  }

  /** A printed pair is parsed back exactly when the version has no underscore; the service ID may have any. */
  lemma RoundTrip(id: string, version: string)
    ensures Parsed(Printed(id, version)) == Some(Service(id, version)) <==> '_' !in version
    ensures Parsed(Printed(id, version)).Some?
  {
    var s := Printed(id, version);
    JoinSplit(s);
    assert s[|id|] == '_';
    TwoFields(s);
    if '_' !in version {
      SplitPrinted(id, version);
      JoinSplit(id);
      assert (Split(id) + [version])[..|Split(id)|] == Split(id);
    }
  }

  lemma {:induction false} TwoFields(s: string)
    requires '_' in s
    ensures |Split(s)| >= 2
    decreases |s|
  {
    if s[|s| - 1] != '_' {
      assert s == s[..|s| - 1] + [s[|s| - 1]];
      TwoFields(s[..|s| - 1]);
    }
  }

  /** Among pairs whose versions have no underscore the printed ID is unique. */
  lemma PrintedIsUnique(a: Service, b: Service)
    requires '_' !in a.version && '_' !in b.version && Printed(a.id, a.version) == Printed(b.id, b.version)
    ensures a == b
  {
    RoundTrip(a.id, a.version);
    RoundTrip(b.id, b.version);
  }

  lemma UnderscoresCollide()
    ensures Printed("a", "1_2") == Printed("a_1", "2") == "a_1_2"
    ensures Parsed(Printed("a", "1_2")) == Some(Service("a_1", "2"))
  {
    RoundTrip("a_1", "2");
  }

  /* ---- Removing an outdated service ---- */

  class ServiceManager {
    /** The stored services, and those whose image folder exists. */
    var services: seq<Service>
    var images: set<Service>

    /** Removes every stored service of this ID and version with its image; `false`: the ID cannot be parsed. */
    method RemoveOutdatedService(id: string) returns (ok: bool)
      modifies this
      ensures ok <==> Parsed(id).Some?
      ensures ok ==> services == Filter(IsNot(Parsed(id).value), old(services))
      ensures ok ==> images == if Parsed(id).value in old(services) then old(images) - {Parsed(id).value}
                               else old(images)
      ensures !ok ==> services == old(services) && images == old(images)
    {
      var serviceInfo := Split(id);
      if |serviceInfo| < 2 {
        return false;
      }
      var version := serviceInfo[|serviceInfo| - 1];
      serviceInfo := serviceInfo[..|serviceInfo| - 1];
      var serviceID := Join(serviceInfo);
      ghost var named := Service(serviceID, version);
      var found := services;
      FilterNone(IsNot(named), []);
      for k := 0 to |found|
        invariant found == old(services)
        invariant images == if named in found[..k] then old(images) - {named} else old(images)
        invariant services == if named in found[..k] then Filter(IsNot(named), old(services)) else old(services)
      {
        assert found[..k + 1] == found[..k] + [found[k]];
        if found[k].id == serviceID && found[k].version == version {
          images := images - {found[k]};
          services := RemoveAll(services, found[k]);
          FilterTwice(IsNot(named), old(services));
        }
      }
      assert found[..|found|] == found;
      if named !in found {
        FilterAll(IsNot(named), found);
      }
      return true;
    }

    /** The allocator names a cached service; that service and no other goes iff its version has no underscore. */
    method EvictService(service: Service)
      requires service in services
      modifies this
      ensures services == Filter(IsNot(service), old(services)) <==> '_' !in service.version
      ensures '_' in service.version ==> service in services
    {
      RoundTrip(service.id, service.version);
      ghost var before := services;
      var ok := RemoveOutdatedService(Printed(service.id, service.version));
      FilterElements(IsNot(service), before);
      FilterElements(IsNot(Parsed(Printed(service.id, service.version)).value), before);
    }
  }

  function IsNot(service: Service): Service -> bool {
    (s: Service) => s != service
  }

  function RemoveAll(services: seq<Service>, service: Service): seq<Service> {
    Filter(IsNot(service), services)
  }
}
