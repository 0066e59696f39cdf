/** The instance records the launcher compares, and the comparison it uses. */
module Instances {
  import opened Sequences

  type InstanceID = string

  datatype InstanceIdent = InstanceIdent(serviceID: string, subjectID: string, instance: nat)

  datatype FirewallRule = FirewallRule(dstIP: string, dstPort: string, proto: string, srcIP: string)

  datatype NetworkParameters = NetworkParameters(
    networkID: string, subnet: string, ip: string, vlanID: nat,
    dnsServers: seq<string>, firewallRules: seq<FirewallRule>)

  datatype InstanceInfo = InstanceInfo(
    ident: InstanceIdent, network: NetworkParameters, uid: nat, priority: nat,
    storagePath: string, statePath: string)

  /** An instance together with the ID the node keeps it under. */
  datatype StoredInstance = StoredInstance(info: InstanceInfo, id: InstanceID)

  /** Same length, and everything in `a` occurs in `b`: what the nested scans decide. */
  predicate Covers<T(==)>(a: seq<T>, b: seq<T>) {
    |a| == |b| && forall x | x in a :: x in b
  }

  predicate NetworkEqual(p: NetworkParameters, q: NetworkParameters) {
    Covers(p.dnsServers, q.dnsServers) && Covers(p.firewallRules, q.firewallRules)
  }

  /** Note that the network ID is not compared. */
  predicate InfoEqual(a: InstanceInfo, b: InstanceInfo) {
    && a.ident == b.ident
    && a.network.subnet == b.network.subnet
    && a.network.ip == b.network.ip
    && a.network.vlanID == b.network.vlanID
    && a.uid == b.uid
    && a.priority == b.priority
    && a.storagePath == b.storagePath
    && a.statePath == b.statePath
    && NetworkEqual(a.network, b.network)
  }

  method ScanCovers<T(==)>(a: seq<T>, b: seq<T>) returns (covered: bool)
    ensures covered <==> forall x :: x in a ==> x in b
  {
    label next:
    for i := 0 to |a|
      invariant forall k :: 0 <= k < i ==> a[k] in b
    {
      for j := 0 to |b|
        invariant a[i] !in b[..j]
      {
        if a[i] == b[j] {
          continue next;
        }
      }
      assert b[..|b|] == b;
      return false;
    }
    return true;
  }

  method NetworkParametersEqual(p: NetworkParameters, q: NetworkParameters) returns (equal: bool)
    ensures equal <==> NetworkEqual(p, q)
  {
    if |p.dnsServers| != |q.dnsServers| || |p.firewallRules| != |q.firewallRules| {
      return false;
    }
    var dns := ScanCovers(p.dnsServers, q.dnsServers);
    if !dns {
      return false;
    }
    equal := ScanCovers(p.firewallRules, q.firewallRules);
  }

  method InstanceInfoEqual(a: InstanceInfo, b: InstanceInfo) returns (equal: bool)
    ensures equal <==> InfoEqual(a, b)
  {
    if
      || a.ident != b.ident
      || a.network.subnet != b.network.subnet
      || a.network.ip != b.network.ip
      || a.network.vlanID != b.network.vlanID
      || a.uid != b.uid
      || a.priority != b.priority
      || a.storagePath != b.storagePath
      || a.statePath != b.statePath
    {
      return false;
    }
    equal := NetworkParametersEqual(a.network, b.network);
  }

  /** No DNS server and no firewall rule is listed twice. */
  ghost predicate DuplicateFree(a: InstanceInfo) {
    Distinct(a.network.dnsServers) && Distinct(a.network.firewallRules)
  }

  /** What equality of two records ought to mean: the lists are compared as sets. */
  ghost predicate SameInstance(a: InstanceInfo, b: InstanceInfo) {
    && a.ident == b.ident && a.uid == b.uid && a.priority == b.priority
    && a.storagePath == b.storagePath && a.statePath == b.statePath
    && a.network.subnet == b.network.subnet && a.network.ip == b.network.ip && a.network.vlanID == b.network.vlanID
    && |a.network.dnsServers| == |b.network.dnsServers|
    && |a.network.firewallRules| == |b.network.firewallRules|
    && Elements(a.network.dnsServers) == Elements(b.network.dnsServers)
    && Elements(a.network.firewallRules) == Elements(b.network.firewallRules)
  }

  /** On a duplicate-free left-hand list the one-directional scan already decides set equality. */
  lemma CoversDecidesSetEquality<T>(a: seq<T>, b: seq<T>)
    requires Distinct(a)
    ensures Covers(a, b) <==> |a| == |b| && Elements(a) == Elements(b)
  {
    if Covers(a, b) {
      Pigeonhole(a, b);
    }
    if Elements(a) == Elements(b) {
      forall x | x in a
        ensures x in b
      {
        assert x in Elements(a);
      }
    }
  }

  lemma InfoEqualDecidesSameInstance(a: InstanceInfo, b: InstanceInfo)
    requires DuplicateFree(a)
    ensures InfoEqual(a, b) <==> SameInstance(a, b)
  {
    CoversDecidesSetEquality(a.network.dnsServers, b.network.dnsServers);
    CoversDecidesSetEquality(a.network.firewallRules, b.network.firewallRules);
  }

  /** Hence the comparison is an equivalence relation on duplicate-free records. */
  lemma InfoEqualIsEquivalence(a: InstanceInfo, b: InstanceInfo, c: InstanceInfo)
    requires DuplicateFree(a) && DuplicateFree(b) && DuplicateFree(c)
    ensures InfoEqual(a, a)
    ensures InfoEqual(a, b) <==> InfoEqual(b, a)
    ensures InfoEqual(a, b) && InfoEqual(b, c) ==> InfoEqual(a, c)
  {
    InfoEqualDecidesSameInstance(a, b);
    InfoEqualDecidesSameInstance(b, a);
    InfoEqualDecidesSameInstance(b, c);
    InfoEqualDecidesSameInstance(a, c);
  }

  /** In general the scan holds both ways exactly when the lists agree as sets. */
  lemma InfoEqualBothWays(a: InstanceInfo, b: InstanceInfo)
    ensures InfoEqual(a, b) && InfoEqual(b, a) <==> SameInstance(a, b)
  {
    if SameInstance(a, b) {
      assert forall x :: x in a.network.dnsServers <==> x in Elements(a.network.dnsServers);
      assert forall x :: x in b.network.dnsServers <==> x in Elements(b.network.dnsServers);
      assert forall x :: x in a.network.firewallRules <==> x in Elements(a.network.firewallRules);
      assert forall x :: x in b.network.firewallRules <==> x in Elements(b.network.firewallRules);
    }
  }

  /** The network ID plays no part. */
  lemma NetworkIDIsIgnored(a: InstanceInfo, b: InstanceInfo, networkID: string)
    ensures var c := a.(network := a.network.(networkID := networkID));
            && InfoEqual(c, b) == InfoEqual(a, b) && InfoEqual(b, c) == InfoEqual(b, a)
            && InfoEqual(a, c)
  {
  }

  /** With a repeated DNS server the comparison depends on the order of its arguments. */
  lemma InfoEqualIsNotSymmetric(a: InstanceInfo) returns (b: InstanceInfo, c: InstanceInfo)
    ensures InfoEqual(b, c) && !InfoEqual(c, b)
  {
    b := a.(network := a.network.(dnsServers := ["8.8.8.8", "8.8.8.8"], firewallRules := []));
    c := a.(network := a.network.(dnsServers := ["8.8.8.8", "1.1.1.1"], firewallRules := []));
    assert "1.1.1.1" in c.network.dnsServers;
    assert "1.1.1.1"[0] != "8.8.8.8"[0];
  }
}
