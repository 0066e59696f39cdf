/** One check of the environment without status batches in between: the iteration and the restarts it causes. */
module EnvRestarts {
  import opened Sequences
  import opened Instances
  import opened Preparation
  import opened Reconciler
  import opened EnvVars

  /** The running instance does not carry what is selected for it. */
  predicate Outdated(infos: seq<EnvVarsInfo>, current: Runtimes, id: InstanceID) {
    id in current && current[id].overrides != Overrides(infos, current[id].instance.info.ident)
  }

  /** The running instances, the states saved at the last visit of each restarted one, and the restarts in order. */
  datatype Progress = Progress(current: Runtimes, saved: map<InstanceID, RunState>, restarted: seq<InstanceID>)

  function Visit(p: Progress, infos: seq<EnvVarsInfo>, id: InstanceID, result: StartOutcome): Progress {
    if !Outdated(infos, p.current, id) then p
    else
      var rt := p.current[id];
      Progress(p.current[id := Restarted(rt, result, Overrides(infos, rt.instance.info.ident))],
               p.saved[id := rt.status.state], p.restarted + [id])
  }

  function VisitAll(current: Runtimes, infos: seq<EnvVarsInfo>, visits: seq<InstanceID>, results: seq<StartOutcome>)
    : Progress
    requires |visits| <= |results|
  {
    if visits == [] then Progress(current, map[], [])
    else
      var n := |visits| - 1;
      Visit(VisitAll(current, infos, visits[..n], results), infos, visits[n], results[n])
  }

  /** The restarted instances whose state is not the saved one. */
  ghost function ToReport(p: Progress): set<InstanceID> {
    set id | id in p.saved && id in p.current && p.saved[id] != p.current[id].status.state
  }

  /** A start of this instance failed before its spec was rebuilt. */
  ghost predicate FailedUnbuilt(visits: seq<InstanceID>, results: seq<StartOutcome>, id: InstanceID)
    requires |visits| <= |results|
  {
    exists k :: 0 <= k < |visits| && visits[k] == id && results[k].SetupFailed? && !results[k].built
  }

  /** Whenever the instance is visited the start fails before its spec is rebuilt. */
  ghost predicate AlwaysUnbuilt(visits: seq<InstanceID>, results: seq<StartOutcome>, id: InstanceID)
    requires |visits| <= |results|
  {
    forall k :: 0 <= k < |visits| && visits[k] == id ==> results[k].SetupFailed? && !results[k].built
  }

  lemma VisitMore(
      current: Runtimes, infos: seq<EnvVarsInfo>, visits: seq<InstanceID>, results: seq<StartOutcome>, k: nat)
    requires k < |visits| <= |results|
    ensures VisitAll(current, infos, visits[..k + 1], results) ==
            Visit(VisitAll(current, infos, visits[..k], results), infos, visits[k], results[k])
  {
    assert visits[..k + 1][..k] == visits[..k];
    hide Visit;
  }

  /** One visit: identities stay, and the instance is up to date afterwards unless its start failed unbuilt. */
  lemma VisitKeeps(p: Progress, infos: seq<EnvVarsInfo>, id: InstanceID, result: StartOutcome)
    ensures var q := Visit(p, infos, id, result);
            && q.current.Keys == p.current.Keys
            && (forall other :: other in p.current ==> q.current[other].instance == p.current[other].instance)
            && (forall other :: other in p.current && other != id ==> q.current[other] == p.current[other])
            && (Outdated(infos, q.current, id) <==>
                  Outdated(infos, p.current, id) && result.SetupFailed? && !result.built)
  {
    hide Overrides;
  }

  /** What all visits keep; `restarted` and `saved` are about the same instances, all outdated at the beginning. */
  lemma {:induction false} SavedAreCurrent(
      current: Runtimes, infos: seq<EnvVarsInfo>, visits: seq<InstanceID>, results: seq<StartOutcome>)
    requires |visits| <= |results|
    ensures var p := VisitAll(current, infos, visits, results);
            && p.current.Keys == current.Keys && p.saved.Keys == Elements(p.restarted) <= current.Keys
            && (forall id :: id in current ==> p.current[id].instance == current[id].instance)
            && (forall id :: id in current && id !in p.restarted ==> p.current[id] == current[id])
            && (forall id :: id in p.restarted ==> Outdated(infos, current, id))
  {
    hide Overrides, Restarted;
    if visits != [] {
      var n := |visits| - 1;
      var p := VisitAll(current, infos, visits[..n], results);
      SavedAreCurrent(current, infos, visits[..n], results);
      VisitKeeps(p, infos, visits[n], results[n]);
      assert Elements(p.restarted + [visits[n]]) == Elements(p.restarted) + {visits[n]};
    }
  }

  lemma SavedKeys(
      current: Runtimes, infos: seq<EnvVarsInfo>, visits: seq<InstanceID>, results: seq<StartOutcome>)
    requires |visits| <= |results|
    ensures VisitAll(current, infos, visits, results).saved.Keys <= current.Keys
  {
    SavedAreCurrent(current, infos, visits, results);
  }

  /** An instance is outdated afterwards exactly if it was before and all its starts failed unbuilt. */
  lemma {:induction false} StaysOutdated(
      current: Runtimes, infos: seq<EnvVarsInfo>, visits: seq<InstanceID>, results: seq<StartOutcome>, id: InstanceID)
    requires |visits| <= |results|
    ensures Outdated(infos, VisitAll(current, infos, visits, results).current, id) <==>
            Outdated(infos, current, id) && AlwaysUnbuilt(visits, results, id)
  {
    if visits != [] {
      hide Overrides, Visit;
      var n := |visits| - 1;
      var p := VisitAll(current, infos, visits[..n], results);
      VisitKeeps(p, infos, visits[n], results[n]);
      StaysOutdated(current, infos, visits[..n], results, id);
      UnbuiltNext(visits, results, n, id);
      hide AlwaysUnbuilt;
    }
  }

  lemma UnbuiltNext(visits: seq<InstanceID>, results: seq<StartOutcome>, n: nat, id: InstanceID)
    requires |visits| == n + 1 <= |results|
    ensures AlwaysUnbuilt(visits, results, id) <==>
            AlwaysUnbuilt(visits[..n], results, id) &&
            (visits[n] == id ==> results[n].SetupFailed? && !results[n].built)
  {
    assert forall k :: 0 <= k < n ==> visits[..n][k] == visits[k];
  }

  /**
   * When every instance is visited at least once: exactly the outdated ones restart, the key set and the identities
   * stay, and afterwards an instance carries its selection unless it was outdated and all its starts failed unbuilt.
   */
  lemma VisitsSettle(current: Runtimes, infos: seq<EnvVarsInfo>, visits: seq<InstanceID>, results: seq<StartOutcome>)
    requires |visits| <= |results| && Elements(visits) == current.Keys
    ensures var p := VisitAll(current, infos, visits, results);
            && p.current.Keys == current.Keys
            && (forall id :: id in current ==> p.current[id].instance == current[id].instance)
            && (forall id :: id in p.restarted <==> Outdated(infos, current, id))
            && (forall id :: Outdated(infos, p.current, id) <==>
                             Outdated(infos, current, id) && AlwaysUnbuilt(visits, results, id))
  {
    hide Overrides, VisitAll, AlwaysUnbuilt;
    SavedAreCurrent(current, infos, visits, results);
    var p := VisitAll(current, infos, visits, results);
    forall id
      ensures Outdated(infos, p.current, id) <==> Outdated(infos, current, id) && AlwaysUnbuilt(visits, results, id)
      ensures Outdated(infos, current, id) ==> id in p.restarted
    {
      StaysOutdated(current, infos, visits, results, id);
      if Outdated(infos, current, id) {
        assert id in Elements(visits);
        VisitedRestarts(current, infos, visits, results, id);
      }
    }
  }

  lemma {:induction false} VisitedRestarts(
      current: Runtimes, infos: seq<EnvVarsInfo>, visits: seq<InstanceID>, results: seq<StartOutcome>, id: InstanceID)
    requires |visits| <= |results| && id in visits && Outdated(infos, current, id)
    ensures id in VisitAll(current, infos, visits, results).restarted
  {
    hide Overrides, Restarted;
    var n := |visits| - 1;
    var p := VisitAll(current, infos, visits[..n], results);
    assert visits == visits[..n] + [visits[n]];
    if id in visits[..n] {
      VisitedRestarts(current, infos, visits[..n], results, id);
    } else {
      SavedAreCurrent(current, infos, visits[..n], results);
    }
  }

  lemma FewerFailed(visits: seq<InstanceID>, results: seq<StartOutcome>, n: nat, id: InstanceID)
    requires n <= |visits| <= |results|
    ensures FailedUnbuilt(visits[..n], results, id) ==> FailedUnbuilt(visits, results, id)
  {
    assert forall k :: 0 <= k < n ==> visits[..n][k] == visits[k];
  }

  /** An instance is restarted again only after a start of it failed unbuilt: with none, every one at most once. */
  lemma {:induction false} RestartedOnce(
      current: Runtimes, infos: seq<EnvVarsInfo>, visits: seq<InstanceID>, results: seq<StartOutcome>)
    requires |visits| <= |results| && forall id :: !FailedUnbuilt(visits, results, id)
    ensures Distinct(VisitAll(current, infos, visits, results).restarted)
  {
    hide Overrides, Restarted;
    if visits != [] {
      var n := |visits| - 1;
      forall id ensures !FailedUnbuilt(visits[..n], results, id) {
        FewerFailed(visits, results, n, id);
      }
      RestartedOnce(current, infos, visits[..n], results);
      RestartedVisited(current, infos, visits[..n], results);
      if visits[n] in visits[..n] {
        StaysOutdated(current, infos, visits[..n], results, visits[n]);
        VisitedUnbuilt(visits[..n], results, visits[n]);
      }
    }
  }

  lemma VisitedUnbuilt(visits: seq<InstanceID>, results: seq<StartOutcome>, id: InstanceID)
    requires |visits| <= |results| && id in visits
    ensures AlwaysUnbuilt(visits, results, id) ==> FailedUnbuilt(visits, results, id)
  {
  }

  lemma {:induction false} RestartedVisited(
      current: Runtimes, infos: seq<EnvVarsInfo>, visits: seq<InstanceID>, results: seq<StartOutcome>)
    requires |visits| <= |results|
    ensures forall id :: id in VisitAll(current, infos, visits, results).restarted ==> id in visits
  {
    hide Overrides, Restarted;
    if visits != [] {
      var n := |visits| - 1;
      assert visits == visits[..n] + [visits[n]];
      RestartedVisited(current, infos, visits[..n], results);
    }
  }

  /** A second check at the same time restarts exactly what was outdated and always failed unbuilt. */
  lemma SecondCheck(
      current: Runtimes, infos: seq<EnvVarsInfo>, now: int, visits: seq<InstanceID>, results: seq<StartOutcome>)
    requires |visits| <= |results| && Elements(visits) == current.Keys
    ensures var cleaned := Cleaned(infos, now);
            forall id :: Outdated(Cleaned(cleaned, now), VisitAll(current, cleaned, visits, results).current, id) <==>
              Outdated(cleaned, current, id) && AlwaysUnbuilt(visits, results, id)
  {
    var cleaned := Cleaned(infos, now);
    var p := VisitAll(current, cleaned, visits, results);
    VisitsSettle(current, cleaned, visits, results);
    hide AlwaysUnbuilt, VisitAll, Cleaned;
    forall id | id in p.current
      ensures Outdated(Cleaned(cleaned, now), p.current, id) == Outdated(cleaned, p.current, id)
    {
      OverridesSettle(infos, now, p.current[id].instance.info.ident);
    }
  }
}
