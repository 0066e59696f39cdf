/** Overriding environment variables of instances: the list, its expiry and what it selects for an instance. */
module EnvVars {
  import opened Sequences
  import opened Instances

  datatype EnvVar = EnvVar(name: string, value: string, ttl: Option<int>)

  /** A missing field matches everything. */
  datatype InstanceFilter = InstanceFilter(
    serviceID: Option<string>, subjectID: Option<string>, instance: Option<nat>)

  datatype EnvVarsInfo = EnvVarsInfo(filter: InstanceFilter, variables: seq<EnvVar>)

  datatype VarError = VarExpired | NotStored

  datatype VarStatus = VarStatus(name: string, error: Option<VarError>)

  datatype InfoStatus = InfoStatus(filter: InstanceFilter, statuses: seq<VarStatus>)

  predicate Matches(filter: InstanceFilter, ident: InstanceIdent) {
    && (filter.serviceID == None || filter.serviceID.value == ident.serviceID)
    && (filter.subjectID == None || filter.subjectID.value == ident.subjectID)
    && (filter.instance == None || filter.instance.value == ident.instance)
  }

  predicate IsExpired(v: EnvVar, now: int) {
    v.ttl.Some? && v.ttl.value < now
  }

  function NotExpired(now: int): EnvVar -> bool {
    (v: EnvVar) => !IsExpired(v, now)
  }

  function Assignment(v: EnvVar): string {
    v.name + "=" + v.value
  }

  function Texts(vars: seq<EnvVar>): (r: seq<string>)
    ensures |r| == |vars| && forall i :: 0 <= i < |r| ==> r[i] == Assignment(vars[i])
  {
    seq(|vars|, i requires 0 <= i < |vars| => Assignment(vars[i]))
  }

  /** All variables whose filter matches, in order. */
  function Selected(infos: seq<EnvVarsInfo>, ident: InstanceIdent): seq<EnvVar> {
    if infos == [] then []
    else
      Selected(infos[..|infos| - 1], ident) +
      (if Matches(infos[|infos| - 1].filter, ident) then infos[|infos| - 1].variables else [])
  }

  predicate SomeExpired(variables: seq<EnvVar>, now: int) {
    exists v | v in variables :: IsExpired(v, now)
  }

  predicate HasExpired(infos: seq<EnvVarsInfo>, now: int) {
    exists info | info in infos :: SomeExpired(info.variables, now)
  }

  function Live(info: EnvVarsInfo, now: int): seq<EnvVar> {
    Filter(NotExpired(now), info.variables)
  }

  /** Without the expired variables and without the entries that have none left. */
  function Expire(infos: seq<EnvVarsInfo>, now: int): seq<EnvVarsInfo> {
    if infos == [] then []
    else
      var info := infos[|infos| - 1];
      Expire(infos[..|infos| - 1], now) +
      (if Live(info, now) == [] then [] else [EnvVarsInfo(info.filter, Live(info, now))])
  }

  /** Entries without variables stay when nothing is expired. */
  function Cleaned(infos: seq<EnvVarsInfo>, now: int): seq<EnvVarsInfo> {
    if HasExpired(infos, now) then Expire(infos, now) else infos
  }

  /* ---- Expiry commutes with selection ---- */

  lemma SelectedAppend(infos: seq<EnvVarsInfo>, info: EnvVarsInfo, ident: InstanceIdent)
    ensures Selected(infos + [info], ident) ==
            Selected(infos, ident) + (if Matches(info.filter, ident) then info.variables else [])
  {
    assert (infos + [info])[..|infos|] == infos;
  }

  lemma {:induction false} ExpireCommutes(infos: seq<EnvVarsInfo>, now: int, ident: InstanceIdent)
    ensures Selected(Expire(infos, now), ident) == Filter(NotExpired(now), Selected(infos, ident))
  {
    if infos != [] {
      var info, before := infos[|infos| - 1], infos[..|infos| - 1];
      ExpireCommutes(before, now, ident);
      FilterConcat(NotExpired(now), Selected(before, ident),
                   if Matches(info.filter, ident) then info.variables else []);
      SelectedAppend(Expire(before, now), EnvVarsInfo(info.filter, Live(info, now)), ident);
      if Live(info, now) == [] {
        assert Expire(infos, now) == Expire(before, now);
      }
    }
  }

  lemma {:induction false} SelectedMember(infos: seq<EnvVarsInfo>, ident: InstanceIdent, v: EnvVar)
    requires v in Selected(infos, ident)
    ensures exists info | info in infos :: v in info.variables
  {
    var info, before := infos[|infos| - 1], infos[..|infos| - 1];
    if v in Selected(before, ident) {
      SelectedMember(before, ident, v);
      var other :| other in before && v in other.variables;
      assert other in infos;
    } else {
      assert info in infos;
    }
  }

  /** What an instance gets after the expired variables are removed is its earlier selection without them, in order. */
  lemma SelectionAfterExpiry(infos: seq<EnvVarsInfo>, now: int, ident: InstanceIdent)
    ensures Selected(Cleaned(infos, now), ident) == Filter(NotExpired(now), Selected(infos, ident))
  {
    if HasExpired(infos, now) {
      ExpireCommutes(infos, now, ident);
    } else {
      forall v | v in Selected(infos, ident) ensures NotExpired(now)(v) {
        SelectedMember(infos, ident, v);
      }
      FilterAll(NotExpired(now), Selected(infos, ident));
    }
  }

  lemma LiveNext(variables: seq<EnvVar>, j: nat, now: int)
    requires j < |variables|
    ensures SomeExpired(variables[..j + 1], now) <==> SomeExpired(variables[..j], now) || IsExpired(variables[j], now)
    ensures Filter(NotExpired(now), variables[..j + 1]) ==
            Filter(NotExpired(now), variables[..j]) + (if IsExpired(variables[j], now) then [] else [variables[j]])
  {
    assert variables[..j + 1] == variables[..j] + [variables[j]];
    assert variables[..j + 1][..j] == variables[..j];
  }

  lemma ExpiredNext(infos: seq<EnvVarsInfo>, i: nat, now: int)
    requires i < |infos|
    ensures HasExpired(infos[..i + 1], now) <==>
            HasExpired(infos[..i], now) || SomeExpired(infos[i].variables, now)
    ensures Expire(infos[..i + 1], now) ==
            Expire(infos[..i], now) +
            (if Live(infos[i], now) == [] then [] else [EnvVarsInfo(infos[i].filter, Live(infos[i], now))])
  {
    assert infos[..i + 1] == infos[..i] + [infos[i]];
    assert infos[..i + 1][..i] == infos[..i];
    hide Filter;
  }

  /** The override list that an instance gets. */
  function Overrides(infos: seq<EnvVarsInfo>, ident: InstanceIdent): seq<string> {
    Texts(Selected(infos, ident))
  }

  /** Expired variables are gone for good: cleaning up again at the same time changes no selection. */
  lemma OverridesSettle(infos: seq<EnvVarsInfo>, now: int, ident: InstanceIdent)
    ensures Overrides(Cleaned(infos, now), ident) == Texts(Filter(NotExpired(now), Selected(infos, ident)))
    ensures Overrides(Cleaned(Cleaned(infos, now), now), ident) == Overrides(Cleaned(infos, now), ident)
  {
    SelectionAfterExpiry(infos, now, ident);
    SelectionAfterExpiry(Cleaned(infos, now), now, ident);
    FilterTwice(NotExpired(now), Selected(infos, ident));
  }

  /* ---- Which instances an entry reaches ---- */

  /** An added entry adds its own texts at the end, and only to the lists of instances that it reaches. */
  lemma EntryAdds(infos: seq<EnvVarsInfo>, info: EnvVarsInfo, ident: InstanceIdent)
    ensures Overrides(infos + [info], ident) == Overrides(infos, ident) + Overrides([info], ident)
    ensures Overrides([info], ident) == [] || Overrides([info], ident) == Texts(info.variables)
  {
    SelectedAppend(infos, info, ident);
    SelectedAlone(info, ident);
    hide Selected, Matches, Texts;
    TextsConcat(Selected(infos, ident), Selected([info], ident));
  }

  lemma SelectedAlone(info: EnvVarsInfo, ident: InstanceIdent)
    ensures Selected([info], ident) == if Matches(info.filter, ident) then info.variables else []
    ensures Texts([]) == []
  {
    assert [info][..0] == [];
  }

  lemma TextsConcat(a: seq<EnvVar>, b: seq<EnvVar>)
    ensures Texts(a + b) == Texts(a) + Texts(b)
  {
    hide Assignment;
  }

  /** An entry with a full filter reaches the instance of this ident and no other. */
  lemma FullFilterReaches(serviceID: string, subjectID: string, instance: nat, vars: seq<EnvVar>, ident: InstanceIdent)
    ensures var info := EnvVarsInfo(InstanceFilter(Some(serviceID), Some(subjectID), Some(instance)), vars);
            Overrides([info], ident) ==
            if ident == InstanceIdent(serviceID, subjectID, instance) then Texts(vars) else []
  {
    SelectedAlone(EnvVarsInfo(InstanceFilter(Some(serviceID), Some(subjectID), Some(instance)), vars), ident);
    hide Selected, Texts;
  }

  /** Leaving out a field makes just this field of the ident irrelevant: it acts as if the instance's own was given. */
  lemma MissingFieldMatches(info: EnvVarsInfo, ident: InstanceIdent)
    ensures var f := info.filter;
            && Overrides([info.(filter := f.(serviceID := None))], ident) ==
               Overrides([info.(filter := f.(serviceID := Some(ident.serviceID)))], ident)
            && Overrides([info.(filter := f.(subjectID := None))], ident) ==
               Overrides([info.(filter := f.(subjectID := Some(ident.subjectID)))], ident)
            && Overrides([info.(filter := f.(instance := None))], ident) ==
               Overrides([info.(filter := f.(instance := Some(ident.instance)))], ident)
  {
    var f := info.filter;
    SelectedAlone(info.(filter := f.(serviceID := None)), ident);
    SelectedAlone(info.(filter := f.(serviceID := Some(ident.serviceID))), ident);
    SelectedAlone(info.(filter := f.(subjectID := None)), ident);
    SelectedAlone(info.(filter := f.(subjectID := Some(ident.subjectID))), ident);
    SelectedAlone(info.(filter := f.(instance := None)), ident);
    SelectedAlone(info.(filter := f.(instance := Some(ident.instance))), ident);
    hide Selected, Texts;
  }

  /** The fields a filter gives are those of the ident. */
  ghost predicate Agrees(filter: InstanceFilter, ident: InstanceIdent) {
    && filter.serviceID in {None, Some(ident.serviceID)}
    && filter.subjectID in {None, Some(ident.subjectID)}
    && filter.instance in {None, Some(ident.instance)}
  }

  ghost predicate Sets(infos: seq<EnvVarsInfo>, ident: InstanceIdent, v: EnvVar) {
    exists info :: info in infos && Agrees(info.filter, ident) && v in info.variables
  }

  lemma {:induction false} SelectedSets(infos: seq<EnvVarsInfo>, ident: InstanceIdent, v: EnvVar)
    ensures v in Selected(infos, ident) <==> Sets(infos, ident, v)
  {
    if infos != [] {
      var n := |infos| - 1;
      SelectedSets(infos[..n], ident, v);
      assert infos == infos[..n] + [infos[n]];
      assert Matches(infos[n].filter, ident) == Agrees(infos[n].filter, ident);
      hide Matches, Agrees;
      if Sets(infos[..n], ident, v) {
        var info :| info in infos[..n] && Agrees(info.filter, ident) && v in info.variables;
        assert info in infos;
      }
    }
  }

  /** A text is on the list exactly if a fitting entry has a variable whose name and value it joins. */
  lemma ListedTexts(infos: seq<EnvVarsInfo>, ident: InstanceIdent)
    ensures forall text :: text in Overrides(infos, ident) <==>
              exists v :: Sets(infos, ident, v) && text == v.name + "=" + v.value
  {
    forall v ensures v in Selected(infos, ident) <==> Sets(infos, ident, v) {
      SelectedSets(infos, ident, v);
    }
    hide Selected, Sets;
    TextsMembers(Selected(infos, ident));
  }

  /** The same after the expired variables are dropped. */
  lemma UnexpiredTexts(infos: seq<EnvVarsInfo>, now: int, ident: InstanceIdent)
    ensures forall text :: text in Texts(Filter(NotExpired(now), Selected(infos, ident))) <==>
              exists v :: Sets(infos, ident, v) && (v.ttl == None || now <= v.ttl.value)
                          && text == v.name + "=" + v.value
  {
    var vars := Filter(NotExpired(now), Selected(infos, ident));
    FilterElements(NotExpired(now), Selected(infos, ident));
    forall v ensures v in vars <==> Sets(infos, ident, v) && (v.ttl == None || now <= v.ttl.value) {
      SelectedSets(infos, ident, v);
    }
    hide Selected, Sets, Filter;
    TextsMembers(vars);
  }

  lemma TextsMembers(vars: seq<EnvVar>)
    ensures forall text :: text in Texts(vars) <==> exists v :: v in vars && text == v.name + "=" + v.value
  {
    forall v | v in vars ensures v.name + "=" + v.value in Texts(vars) {
      var k :| 0 <= k < |vars| && vars[k] == v;
      assert Texts(vars)[k] == v.name + "=" + v.value;
    }
    forall k | 0 <= k < |vars| ensures vars[k] in vars && Texts(vars)[k] == vars[k].name + "=" + vars[k].value {
    }
  }

  /** The variable is listed under this filter. */
  ghost predicate Carries(infos: seq<EnvVarsInfo>, filter: InstanceFilter, v: EnvVar) {
    exists info :: info in infos && info.filter == filter && v in info.variables
  }

  lemma {:induction false} ExpireCarries(infos: seq<EnvVarsInfo>, now: int, filter: InstanceFilter, v: EnvVar)
    ensures Carries(Expire(infos, now), filter, v) <==>
            Carries(infos, filter, v) && (v.ttl == None || now <= v.ttl.value)
  {
    if infos != [] {
      var n := |infos| - 1;
      ExpireCarries(infos[..n], now, filter, v);
      assert infos == infos[..n] + [infos[n]];
      var live := Live(infos[n], now);
      FilterElements(NotExpired(now), infos[n].variables);
      assert v in live <==> v in infos[n].variables && (v.ttl == None || now <= v.ttl.value);
      var before, kept := Expire(infos[..n], now), EnvVarsInfo(infos[n].filter, live);
      assert Expire(infos, now) == before + (if live == [] then [] else [kept]);
      hide Expire, Carries, Live, Filter;
      CarriesNext(infos[..n], infos[n], filter, v);
      CarriesNext(before, kept, filter, v);
      if live == [] {
        assert Expire(infos, now) == before;
      }
    }
  }

  lemma CarriesNext(infos: seq<EnvVarsInfo>, info: EnvVarsInfo, filter: InstanceFilter, v: EnvVar)
    ensures Carries(infos + [info], filter, v) <==>
            Carries(infos, filter, v) || (info.filter == filter && v in info.variables)
  {
    if i :| i in infos && i.filter == filter && v in i.variables {
      assert i in infos + [info];
    }
    assert info in infos + [info];
  }

  /** The expiry removes exactly the variables whose time to live is over; one without a time never expires. */
  lemma ExpiryIsExact(infos: seq<EnvVarsInfo>, now: int)
    ensures forall filter, v :: Carries(Cleaned(infos, now), filter, v) <==>
              Carries(infos, filter, v) && (v.ttl == None || now <= v.ttl.value)
  {
    forall filter, v
      ensures Carries(Cleaned(infos, now), filter, v) <==>
              Carries(infos, filter, v) && (v.ttl == None || now <= v.ttl.value)
    {
      ExpireCarries(infos, now, filter, v);
    }
  }

  /* ---- The request ---- */

  /** The override list of the launcher and its copy in the storage. */
  class EnvOverrides {
    var currentEnvVars: seq<EnvVarsInfo>
    var storedEnvVars: seq<EnvVarsInfo>

    /** At start-up the list is loaded from the storage. */
    constructor (stored: seq<EnvVarsInfo>)
      ensures currentEnvVars == storedEnvVars == stored
    {
      currentEnvVars, storedEnvVars := stored, stored;
    }

    /** Every variable gets its status; expired ones are refused here but kept until the next expiry check. */
    method SetEnvVars(envVarsInfo: seq<EnvVarsInfo>, now: int, stored: bool) returns (envVarsStatus: seq<InfoStatus>)
      modifies this
      ensures currentEnvVars == envVarsInfo
      ensures storedEnvVars == if stored then envVarsInfo else old(storedEnvVars)
      ensures |envVarsStatus| == |envVarsInfo|
      ensures forall i :: 0 <= i < |envVarsInfo| ==> IsStatus(envVarsStatus[i], envVarsInfo[i], now, stored)
    {
      envVarsStatus := [];
      for i := 0 to |envVarsInfo|
        invariant |envVarsStatus| == i
        invariant forall k :: 0 <= k < i ==> IsStatus(envVarsStatus[k], envVarsInfo[k], now, true)
        invariant storedEnvVars == old(storedEnvVars)
      {
        var info := envVarsInfo[i];
        var statuses := [];
        for j := 0 to |info.variables|
          invariant |statuses| == j
          invariant forall k :: 0 <= k < j ==> IsVarStatus(statuses[k], info.variables[k], now, true)
        {
          var envVar := info.variables[j];
          if IsExpired(envVar, now) {
            statuses := statuses + [VarStatus(envVar.name, Some(VarExpired))];
            continue;
          }
          statuses := statuses + [VarStatus(envVar.name, None)];
        }
        envVarsStatus := envVarsStatus + [InfoStatus(info.filter, statuses)];
      }
      currentEnvVars := envVarsInfo;
      if stored {
        storedEnvVars := envVarsInfo;
      } else {
        envVarsStatus := SetEnvVarsErr(envVarsStatus, envVarsInfo, now);
      }
    }

    /** The storage error goes to every variable that has no error yet. */
    method SetEnvVarsErr(envVarsStatus: seq<InfoStatus>, ghost infos: seq<EnvVarsInfo>, ghost now: int)
      returns (failed: seq<InfoStatus>)
      requires |envVarsStatus| == |infos|
      requires forall i :: 0 <= i < |infos| ==> IsStatus(envVarsStatus[i], infos[i], now, true)
      ensures |failed| == |infos|
      ensures forall i :: 0 <= i < |infos| ==> IsStatus(failed[i], infos[i], now, false)
    {
      failed := envVarsStatus;
      for i := 0 to |failed|
        invariant |failed| == |infos|
        invariant forall k :: 0 <= k < i ==> IsStatus(failed[k], infos[k], now, false)
        invariant forall k :: i <= k < |infos| ==> IsStatus(failed[k], infos[k], now, true)
      {
        var statuses := failed[i].statuses;
        assert IsStatus(failed[i], infos[i], now, true);
        for j := 0 to |statuses|
          invariant |statuses| == |infos[i].variables|
          invariant forall k :: 0 <= k < j ==> IsVarStatus(statuses[k], infos[i].variables[k], now, false)
          invariant forall k :: j <= k < |statuses| ==> IsVarStatus(statuses[k], infos[i].variables[k], now, true)
        {
          assert IsVarStatus(statuses[j], infos[i].variables[j], now, true);
          assert statuses[j].error in {None, Some(VarExpired), Some(NotStored)} by {
            match statuses[j].error case None => case Some(VarExpired) => case Some(NotStored) =>
          }
          if statuses[j].error == None {
            statuses := statuses[j := VarStatus(statuses[j].name, Some(NotStored))];
          }
        }
        var status := InfoStatus(failed[i].filter, statuses);
        assert IsStatus(status, infos[i], now, false);
        failed := failed[i := status];
      }
    }

    method GetInstanceEnvVars(ident: InstanceIdent) returns (envVars: seq<string>)
      ensures envVars == Overrides(currentEnvVars, ident)
      ensures forall text :: text in envVars <==>
                exists v :: Sets(currentEnvVars, ident, v) && text == v.name + "=" + v.value
    {
      envVars := [];
      for i := 0 to |currentEnvVars|
        invariant envVars == Texts(Selected(currentEnvVars[..i], ident))
      {
        var info := currentEnvVars[i];
        assert currentEnvVars[..i + 1][..i] == currentEnvVars[..i];
        if Matches(info.filter, ident) {
          ghost var before := envVars;
          for j := 0 to |info.variables|
            invariant envVars == before + Texts(info.variables[..j])
          {
            envVars := envVars + [Assignment(info.variables[j])];
          }
          assert info.variables[..|info.variables|] == info.variables;
        }
      }
      assert currentEnvVars[..|currentEnvVars|] == currentEnvVars;
      ListedTexts(currentEnvVars, ident);
    }

    method LiveItems(item: EnvVarsInfo, now: int) returns (updatedItems: seq<EnvVar>, expired: bool)
      ensures updatedItems == Live(item, now)
      ensures expired <==> SomeExpired(item.variables, now)
    {
      updatedItems, expired := [], false;
      assert item.variables[..|item.variables|] == item.variables;
      assert Filter(NotExpired(now), item.variables[..0]) == [] && !SomeExpired(item.variables[..0], now);
      hide Filter, SomeExpired;
      for j := 0 to |item.variables|
        invariant updatedItems == Filter(NotExpired(now), item.variables[..j])
        invariant expired <==> SomeExpired(item.variables[..j], now)
      {
        var envVar := item.variables[j];
        LiveNext(item.variables, j, now);
        if IsExpired(envVar, now) {
          expired := true;
          continue;
        }
        updatedItems := updatedItems + [envVar];
      }
    }

    method RemoveOutdatedEnvVars(now: int, stored: bool)
      modifies this
      ensures currentEnvVars == Cleaned(old(currentEnvVars), now)
      ensures forall filter, v :: Carries(currentEnvVars, filter, v) <==>
                Carries(old(currentEnvVars), filter, v) && (v.ttl == None || now <= v.ttl.value)
      ensures (forall info, v :: info in old(currentEnvVars) && v in info.variables ==>
                 v.ttl == None || now <= v.ttl.value) ==>
                currentEnvVars == old(currentEnvVars) && storedEnvVars == old(storedEnvVars)
      ensures storedEnvVars == if stored && HasExpired(old(currentEnvVars), now) then currentEnvVars
                               else old(storedEnvVars)
    {
      var updatedEnvVars, updated := [], false;
      ExpiryIsExact(currentEnvVars, now);
      hide Carries;
      for i := 0 to |currentEnvVars|
        invariant currentEnvVars == old(currentEnvVars) && storedEnvVars == old(storedEnvVars)
        invariant updatedEnvVars == Expire(currentEnvVars[..i], now)
        invariant updated <==> HasExpired(currentEnvVars[..i], now)
      {
        var item := currentEnvVars[i];
        ExpiredNext(currentEnvVars, i, now);
        var updatedItems, expired := LiveItems(item, now);
        if expired {
          updated := true;
        }
        if updatedItems != [] {
          updatedEnvVars := updatedEnvVars + [EnvVarsInfo(item.filter, updatedItems)];
        }
      }
      assert currentEnvVars[..|currentEnvVars|] == currentEnvVars;
      if updated {
        currentEnvVars := updatedEnvVars;
        if stored {
          storedEnvVars := updatedEnvVars;
        }
      }
    }
  }

  ghost predicate IsStatus(status: InfoStatus, info: EnvVarsInfo, now: int, stored: bool) {
    && status.filter == info.filter && |status.statuses| == |info.variables|
    && forall k :: 0 <= k < |info.variables| ==> IsVarStatus(status.statuses[k], info.variables[k], now, stored)
  }

  ghost predicate IsVarStatus(status: VarStatus, v: EnvVar, now: int, stored: bool) {
    && status.name == v.name
    && (status.error == Some(VarExpired) <==> v.ttl != None && v.ttl.value < now)
    && (status.error == Some(NotStored) <==> !stored && (v.ttl == None || now <= v.ttl.value))
  }
}
